/**
 * The assistant chat of src/pages/AIActions.tsx: the message list a send appends to,
 * the Enter-key rule, the send button's state, and the summary message that a
 * `leadId` in the address seeds the chat with.
 */
module AIActions {
  import opened Outcomes
  import opened JsText

  datatype Role = User | Assistant

  datatype Message = Message(role: Role, content: string)

  /** A lead of the page's own data, with the fields the summary shows. */
  datatype AiLead = AiLead(id: string, nombre: string, telefono: string, estado: string,
                           idioma: string, presupuesto: string, zona: string, tipologia: string)

  const MockLeads: seq<AiLead> := [
    AiLead("1", "Carlos Martínez", "+34 612 345 678", "New", "ES", "400-500K", "Nueva Andalucía", "Villa"),
    AiLead("2", "Sarah Johnson", "", "Follow-up", "EN", "800K-1M", "Golden Mile", "Apartment"),
    AiLead("3", "Miguel Rodríguez", "+34 623 456 789", "Qualified", "ES", "600-700K", "Sierra Blanca", "Apartment")
  ]

  /** `lead` is at offset `i` of `leads` and is the first lead there with id `id`. */
  predicate FirstWithId(leads: seq<AiLead>, id: string, lead: AiLead, i: int) {
    0 <= i < |leads| && leads[i] == lead && lead.id == id && forall j :: 0 <= j < i ==> leads[j].id != id
  }

  /** `leads.find(l => l.id === id)`: the first lead with that id. */
  function FindLead(leads: seq<AiLead>, id: string): (r: Option<AiLead>)
    ensures r.None? <==> forall i :: 0 <= i < |leads| ==> leads[i].id != id
    ensures r.Some? ==> exists i :: FirstWithId(leads, id, r.value, i)
  {
    if leads == [] then None
    else if leads[0].id == id then (assert FirstWithId(leads, id, leads[0], 0); Some(leads[0]))
    else
      var r := FindLead(leads[1..], id);
      if r.Some? then FirstWithIdShift(leads, id, r.value); r else r
  }

  /** The first match in the tail is the first match of the whole list when the head
      does not match. */
  lemma FirstWithIdShift(leads: seq<AiLead>, id: string, lead: AiLead)
    requires leads != [] && leads[0].id != id
    requires exists i :: FirstWithId(leads[1..], id, lead, i)
    ensures exists i :: FirstWithId(leads, id, lead, i)
  {
    var i :| FirstWithId(leads[1..], id, lead, i);
    forall j | 0 <= j < i + 1 ensures leads[j].id != id {
      if j > 0 { assert leads[j] == leads[1..][j - 1]; }
    }
    assert FirstWithId(leads, id, lead, i + 1);
  }

  /** The contact channel line of the summary. */
  function Channel(lead: AiLead): (c: string)
    ensures c == "WhatsApp available" <==> lead.telefono != ""
  {
    if lead.telefono != "" then "WhatsApp available" else "Email only (request phone)"
  }

  function SummaryHead(lead: AiLead): string {
    "\U{1F4CA} **Lead Summary: " + lead.nombre + "**\n\n**Current Status:** " + lead.estado +
    "\n**Budget:** " + lead.presupuesto + "\n**Interested Zone:** " + lead.zona +
    "\n**Type:** " + lead.tipologia + "\n**Language:** " + lead.idioma + "\n"
  }

  function ChannelLine(lead: AiLead): string {
    "**Contact Channel:** " + Channel(lead)
  }

  const SummaryTail: string :=
    "\n\n**Suggestions:**\n• Better qualification: ask for timing and financing\n" +
    "• Send 3 properties matching their profile\n• Schedule follow-up call in next 48h\n\n" +
    "How can I help you with this lead?"

  /** The assistant's summary of a lead. */
  function Summary(lead: AiLead): string {
    SummaryHead(lead) + ChannelLine(lead) + SummaryTail
  }

  /** The summary names the lead's channel, right after its header lines. */
  lemma SummaryNamesChannel(lead: AiLead)
    ensures Includes(Summary(lead), ChannelLine(lead))
    ensures OccursAt(Summary(lead), ChannelLine(lead), |SummaryHead(lead)|)
  {
    var s := Summary(lead);
    var h := SummaryHead(lead);
    assert s == h + (ChannelLine(lead) + SummaryTail);
    assert s[|h|..|h| + |ChannelLine(lead)|] == ChannelLine(lead);
    IncludesAt(s, ChannelLine(lead), |h|);
  }

  /** The chat after the `[leadId]` effect: one summary message for a known lead,
      otherwise the messages as they were. */
  function Seeded(leadId: Option<string>, messages: seq<Message>): (r: seq<Message>)
    ensures leadId.None? || leadId.value == "" ==> r == messages
    ensures leadId.Some? && FindLead(MockLeads, leadId.value).None? ==> r == messages
    ensures leadId.Some? && FindLead(MockLeads, leadId.value).Some? ==>
      r == [Message(Assistant, Summary(FindLead(MockLeads, leadId.value).value))]
    ensures r == messages || |r| == 1
  {
    if leadId.Some? && leadId.value != "" then
      match FindLead(MockLeads, leadId.value)
      case Some(lead) => [Message(Assistant, Summary(lead))]
      case None => messages
    else messages
  }

  /** Running the effect again for the same lead changes nothing more: a summary is
      not seeded twice. */
  lemma SeededIdempotent(leadId: Option<string>, messages: seq<Message>)
    ensures Seeded(leadId, Seeded(leadId, messages)) == Seeded(leadId, messages)
  {
  }

  /** On the page's data: lead "2" has no phone, so its summary offers e-mail only; an
      unknown id leaves the chat alone. */
  lemma SeededFromMockLeads(messages: seq<Message>)
    ensures Seeded(Some("2"), messages) == [Message(Assistant, Summary(MockLeads[1]))]
    ensures Channel(MockLeads[1]) == "Email only (request phone)"
    ensures Channel(MockLeads[0]) == "WhatsApp available"
    ensures Seeded(Some("4"), messages) == messages
  {
    assert MockLeads[0].id != "2";
    assert FindLead(MockLeads, "2") == Some(MockLeads[1]);
    assert MockLeads[0].id != "4" && MockLeads[1].id != "4" && MockLeads[2].id != "4";
  }

  /** The send button's `disabled` rule: the trimmed prompt is empty. */
  predicate SendDisabled(prompt: string) {
    !Truthy(Trim(prompt))
  }

  /** The button is enabled exactly when the prompt holds a character other than
      white space, which is exactly when `handleSend` goes past its guard. */
  lemma SendEnabledIffSends(prompt: string)
    ensures SendDisabled(prompt) <==> AllSpace(prompt)
    ensures !SendDisabled(prompt) <==> !Blank(prompt)
  {
    TrimEmptyIffAllSpace(prompt);
  }

  /** The chat's state. */
  class Chat {
    var prompt: string
    var messages: seq<Message>
    /** The address's `leadId` the `[leadId]` effect last ran for. */
    var leadId: Option<string>

    /** Mounting with the address's `leadId`: the chat starts empty, then the effect runs. */
    constructor(leadId: Option<string>)
      ensures prompt == "" && messages == Seeded(leadId, []) && this.leadId == leadId
    {
      prompt := "";
      messages := Seeded(leadId, []);
      this.leadId := leadId;
    }

    /** The address's `leadId` becomes `newId`: React reruns the `[leadId]` effect only
        when the id differs from the one it last ran for. */
    method LeadChanged(newId: Option<string>)
      modifies this
      ensures leadId == newId && prompt == old(prompt)
      ensures newId == old(leadId) ==> messages == old(messages)
      ensures newId != old(leadId) ==> messages == Seeded(newId, old(messages))
    {
      if newId == leadId {
        return;
      }
      leadId := newId;
      if newId.Some? && newId.value != "" {
        var lead := FindLead(MockLeads, newId.value);
        if lead.Some? {
          messages := [Message(Assistant, Summary(lead.value))];
        }
      }
    }

    /** Typing in the prompt box. */
    method SetPrompt(value: string)
      modifies this
      ensures prompt == value && messages == old(messages)
    {
      prompt := value;
    }

    /** `handleSend`: a blank prompt does nothing; any other is appended, as typed, as
        one user message and the box is cleared.  Returns whether it was sent. */
    method HandleSend() returns (sent: bool)
      modifies this
      ensures sent <==> !Blank(old(prompt))
      ensures sent <==> !SendDisabled(old(prompt))
      ensures sent ==> messages == old(messages) + [Message(User, old(prompt))] && prompt == ""
      ensures !sent ==> messages == old(messages) && prompt == old(prompt)
    {
      if Blank(prompt) {
        return false;
      }
      messages := messages + [Message(User, prompt)];
      prompt := "";
      sent := true;
    }

    /** `handleKeyDown`: Enter without Shift sends (and suppresses the new line).
        Returns whether the key's default action was prevented. */
    method HandleKeyDown(key: string, shiftKey: bool) returns (prevented: bool)
      modifies this
      ensures prevented <==> key == "Enter" && !shiftKey
      ensures prevented && !Blank(old(prompt)) ==>
        messages == old(messages) + [Message(User, old(prompt))] && prompt == ""
      ensures !prevented || Blank(old(prompt)) ==> messages == old(messages) && prompt == old(prompt)
    {
      prevented := key == "Enter" && !shiftKey;
      if prevented {
        var _ := HandleSend();
      }
    }
  }
}
