/**
 * The session holder of src/context/AuthContext.tsx: the `token` and `agent` state of
 * `AuthProvider`, read from `localStorage` when the provider mounts, mirrored back to
 * it by two effects after every change, set by `login` and cleared by `logout`.
 */
module AuthContext {
  import opened Outcomes
  import Json

  /** An agent as the application holds it: the plain object received from the
      server (id, name, email, role, company_id), written as its JSON members. */
  type Agent = seq<Json.Member>

  /** `localStorage`: string keys to string values. */
  class LocalStorage {
    var items: map<string, string>

    constructor(initial: map<string, string>)
      ensures items == initial
    {
      items := initial;
    }

    method SetItem(key: string, value: string)
      modifies this
      ensures items == old(items)[key := value]
    {
      items := items[key := value];
    }

    method RemoveItem(key: string)
      modifies this
      ensures items == old(items) - {key}
    {
      items := items - {key};
    }
  }

  /** `localStorage.getItem(key)`: `null` for a missing key. */
  function GetItem(items: map<string, string>, key: string): Option<string> {
    if key in items then Some(items[key]) else None
  }

  datatype Session = Session(token: Option<string>, agent: Option<Agent>)

  /** `!!token`: a missing or empty token is not authenticated. */
  predicate Authenticated(s: Session) {
    s.token.Some? && s.token.value != ""
  }

  /** The two `useState` initialisers: the stored token as it is, and the stored agent
      through `JSON.parse` when the entry is truthy.  A stored agent that does not
      parse makes the initialiser throw, and the provider does not mount. */
  function InitialSession(items: map<string, string>): (r: Result<Session, string>)
    ensures r.Success? ==> r.value.token == GetItem(items, "token")
    ensures GetItem(items, "agent") == None || GetItem(items, "agent") == Some("") ==>
      r == Success(Session(GetItem(items, "token"), None))
    ensures r.Failure? <==>
      "agent" in items && items["agent"] != "" && Json.Parse(items["agent"]).None?
  {
    var token := GetItem(items, "token");
    var saved := GetItem(items, "agent");
    if saved.None? || saved.value == "" then Success(Session(token, None))
    else
      var parsed := Json.Parse(saved.value);
      if parsed.None? then Failure("SyntaxError")
      else if parsed.value.NullDoc? then Success(Session(token, None))
      else Success(Session(token, Some(parsed.value.members)))
  }

  /** The storage after the token effect: set when the token is truthy, else removed. */
  function TokenSynced(items: map<string, string>, token: Option<string>): map<string, string> {
    if token.Some? && token.value != "" then items["token" := token.value] else items - {"token"}
  }

  /** The storage after the agent effect: its JSON when there is one, else removed. */
  function AgentSynced(items: map<string, string>, agent: Option<Agent>): map<string, string> {
    if agent.Some? then items["agent" := Json.Stringify(agent.value)] else items - {"agent"}
  }

  function Synced(items: map<string, string>, s: Session): map<string, string> {
    AgentSynced(TokenSynced(items, s.token), s.agent)
  }

  /** What the effects leave in storage: the token exactly when authenticated, the
      agent's JSON exactly when there is an agent, and every other key untouched. */
  lemma SyncedEntries(items: map<string, string>, s: Session)
    ensures "token" in Synced(items, s) <==> Authenticated(s)
    ensures Authenticated(s) ==> Synced(items, s)["token"] == s.token.value
    ensures "agent" in Synced(items, s) <==> s.agent.Some?
    ensures s.agent.Some? ==> Json.Parse(Synced(items, s)["agent"]) == Some(Json.ObjectDoc(s.agent.value))
    ensures forall k :: k != "token" && k != "agent" ==>
      (k in Synced(items, s) <==> k in items) && (k in items ==> Synced(items, s)[k] == items[k])
  {
    if s.agent.Some? {
      Json.StringifyRoundTrip(s.agent.value);
    }
  }

  /** Running the effects again changes nothing. */
  lemma SyncedIdempotent(items: map<string, string>, s: Session)
    ensures Synced(Synced(items, s), s) == Synced(items, s)
  {
  }

  /** A reload after the effects have run restores the same agent, and the token when it
      was truthy (an empty token was removed, so it comes back as `null`). */
  lemma ReloadRestores(items: map<string, string>, s: Session)
    ensures InitialSession(Synced(items, s)) ==
      Success(Session(if Authenticated(s) then s.token else None, s.agent))
  {
    var stored := Synced(items, s);
    SyncedEntries(items, s);
    if s.agent.Some? {
      var text := Json.Stringify(s.agent.value);
      assert text[0] == '{';
      assert text != "";
    }
  }

  /** The value `useContext` sees inside a provider. */
  datatype ContextValue = ContextValue(token: Option<string>, agent: Option<Agent>, isAuthenticated: bool)

  /** `useAuth()`: the provider's value, or an error outside any provider. */
  function UseAuth(context: Option<ContextValue>): (r: Result<ContextValue, string>)
    ensures r.Failure? <==> context.None?
    ensures r.Failure? ==> r.error == "useAuth must be used within an AuthProvider"
    ensures r.Success? ==> r.value == context.value
  {
    if context.None? then Failure("useAuth must be used within an AuthProvider") else Success(context.value)
  }

  /** `AuthProvider`: the session state over a storage it keeps in step. */
  class AuthProvider {
    var token: Option<string>
    var agent: Option<Agent>
    const storage: LocalStorage

    /** Storage mirrors the state: the effects have nothing left to do. */
    predicate Valid()
      reads this, storage
    {
      storage.items == Synced(storage.items, Session(token, agent))
    }

    function Value(): (v: ContextValue)
      reads this
      ensures v.isAuthenticated <==> Authenticated(Session(token, agent))
    {
      ContextValue(token, agent, token.Some? && token.value != "")
    }

    /** Mounting: the initial state is what storage holds; then both effects run once. */
    constructor(store: LocalStorage, initial: Session)
      requires InitialSession(store.items) == Success(initial)
      modifies store
      ensures storage == store
      ensures token == initial.token && agent == initial.agent
      ensures store.items == Synced(old(store.items), initial)
      ensures Valid()
    {
      token := initial.token;
      agent := initial.agent;
      storage := store;
      new;
      SyncToken();
      SyncAgent();
      SyncedIdempotent(old(store.items), initial);
    }

    /** The `[token]` effect. */
    method SyncToken()
      modifies storage
      ensures storage.items == TokenSynced(old(storage.items), token)
    {
      if token.Some? && token.value != "" {
        storage.SetItem("token", token.value);
      } else {
        storage.RemoveItem("token");
      }
    }

    /** The `[agent]` effect. */
    method SyncAgent()
      modifies storage
      ensures storage.items == AgentSynced(old(storage.items), agent)
    {
      if agent.Some? {
        storage.SetItem("agent", Json.Stringify(agent.value));
      } else {
        storage.RemoveItem("agent");
      }
    }

    /** `login(newToken, newAgent)`, followed by the effects the state change triggers. */
    method Login(newToken: string, newAgent: Agent)
      modifies this, storage
      ensures token == Some(newToken) && agent == Some(newAgent)
      ensures storage.items == Synced(old(storage.items), Session(Some(newToken), Some(newAgent)))
      ensures Value().isAuthenticated <==> newToken != ""
      ensures Valid()
    {
      token := Some(newToken);
      agent := Some(newAgent);
      SyncToken();
      SyncAgent();
      SyncedIdempotent(old(storage.items), Session(token, agent));
    }

    /** `logout()`: both fields cleared and both keys removed from storage. */
    method Logout()
      modifies this, storage
      ensures token == None && agent == None
      ensures storage.items == old(storage.items) - {"token", "agent"}
      ensures !Value().isAuthenticated
      ensures Valid()
    {
      token := None;
      agent := None;
      SyncToken();
      SyncAgent();
      assert storage.items == old(storage.items) - {"token"} - {"agent"};
    }
  }
}
