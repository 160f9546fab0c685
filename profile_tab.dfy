/**
 * The profile card of src/components/ProfileTab.tsx: editing the agent's name (save
 * and cancel) and the role badge's colour and caption.
 */
module ProfileTab {
  import opened Outcomes
  import opened JsText
  import opened Toasts

  const EmptyNameToast := Toast("Validation error", "Name cannot be empty", true)
  /** The success title's first three characters are a mis-decoded check mark ("âœ“"),
      as the component's text holds them. */
  const UpdatedToast := Toast("\U{E2}\U{153}\U{201C} Profile updated", "Your name has been updated successfully", false)

  /** The toast of a failed update: the server's message, else the fallback text. */
  function UpdateFailedToast(message: string): Toast {
    MessageOr("Error", message, "Failed to update profile")
  }

  /** The badge colours by lower-cased role. */
  const RoleColors: map<string, string> := map[
    "admin" := "bg-purple-500/10 text-purple-600 border-purple-500/20",
    "agent" := "bg-blue-500/10 text-blue-600 border-blue-500/20",
    "manager" := "bg-green-500/10 text-green-600 border-green-500/20"
  ]

  /** The colour of `getRoleBadge(role)`. */
  function RoleColor(role: string): (c: string)
    ensures Lower(role) in RoleColors ==> c == RoleColors[Lower(role)]
    ensures Lower(role) !in RoleColors ==> c == "bg-muted"
  {
    var key := Lower(role);
    if key in RoleColors && RoleColors[key] != "" then RoleColors[key] else "bg-muted"
  }

  /** The caption of `getRoleBadge(role)`: first character upper-cased, rest as is. */
  function RoleLabel(role: string): (r: string)
    ensures |r| == |role|
    ensures role != "" ==> r[0] == UpperChar(role[0]) && r[1..] == role[1..]
  {
    if role == "" then "" else [UpperChar(role[0])] + role[1..]
  }

  /** The colour lookup ignores case: roles that differ only in the case of ASCII
      letters get the same colour, and only the three known roles get a colour of
      their own. */
  lemma RoleColorIgnoresCase(a: string, b: string)
    requires Lower(a) == Lower(b)
    ensures RoleColor(a) == RoleColor(b)
    ensures RoleColor(a) != "bg-muted" <==> Lower(a) in {"admin", "agent", "manager"}
  {
  }

  /** Concretely: "ADMIN" and "Admin" are the admin role, and its caption is "Admin". */
  lemma AdminBadge()
    ensures RoleColor("ADMIN") == RoleColor("admin") == RoleColors["admin"]
    ensures RoleLabel("admin") == "Admin"
  {
    assert Lower("ADMIN") == "admin";
    assert Lower("admin") == "admin";
  }

  /** Applying the caption twice changes nothing more. */
  lemma RoleLabelIdempotent(role: string)
    ensures RoleLabel(RoleLabel(role)) == RoleLabel(role)
  {
  }

  /** The name-editing state of the card. */
  class ProfileCard {
    const agentId: string
    var agentName: string
    var editedName: string
    var editing: bool
    var saving: bool

    constructor(agentId: string, initialAgentName: string)
      ensures this.agentId == agentId && agentName == initialAgentName && editedName == initialAgentName
      ensures !editing && !saving
    {
      this.agentId := agentId;
      agentName := initialAgentName;
      editedName := initialAgentName;
      editing := false;
      saving := false;
    }

    /** The edit button. */
    method StartEdit()
      modifies this
      ensures editing && agentName == old(agentName) && editedName == old(editedName) && saving == old(saving)
    {
      editing := true;
    }

    /** Typing in the name field. */
    method EditName(value: string)
      modifies this
      ensures editedName == value && agentName == old(agentName) && editing == old(editing) && saving == old(saving)
    {
      editedName := value;
    }

    /** `handleSaveName`; `reply` is the outcome of `updateAgent`, the error being the
        server's message.  Returns the update sent, if any, and the toast. */
    method HandleSaveName(reply: Result<(), string>) returns (sent: Option<(string, string)>, toast: Toast)
      modifies this
      ensures editedName == old(editedName)
      ensures sent.Some? <==> !Blank(old(editedName))
      ensures sent.Some? ==> sent.value == (agentId, old(editedName)) && !saving
      ensures sent.None? ==> toast == EmptyNameToast && unchanged(this)
      ensures sent.Some? && reply.Success? ==> agentName == old(editedName) && !editing && toast == UpdatedToast
      ensures sent.Some? && reply.Failure? ==>
        agentName == old(agentName) && editing == old(editing) && toast == UpdateFailedToast(reply.error)
    {
      if Blank(editedName) {
        return None, EmptyNameToast;
      }
      saving := true;
      sent := Some((agentId, editedName));
      if reply.Success? {
        agentName := editedName;
        editing := false;
        toast := UpdatedToast;
      } else {
        toast := UpdateFailedToast(reply.error);
      }
      saving := false;
    }

    /** `handleCancelEdit`: the field goes back to the saved name. */
    method HandleCancelEdit()
      modifies this
      ensures editedName == agentName == old(agentName) && !editing && saving == old(saving)
    {
      editedName := agentName;
      editing := false;
    }
  }
}
