/** The records every ticket handler returns, in place of the JSON text it serialises,
    and the ordered keyword rules two of the handlers use to pick a priority. */
module Tickets {
  import opened Wrappers
  import opened Text
  import opened TicketIds

  datatype Priority = Low | Medium | High

  /** The value stored under "priority". */
  function PriorityName(p: Priority): string
  {
    match p
    case Low => "low"
    case Medium => "medium"
    case High => "high"
  }

  /** `priority.upper()`, as the staff-issue message shows it. */
  function PriorityUpper(p: Priority): string
  {
    match p
    case Low => "LOW"
    case Medium => "MEDIUM"
    case High => "HIGH"
  }

  /** The upper-case form lower-cases back to the stored name, so the message and the
      ticket state the same priority; and distinct priorities have distinct names. */
  lemma PriorityNamesAgree(p: Priority, q: Priority)
    ensures Lower(PriorityUpper(p)) == PriorityName(p)
    ensures PriorityName(p) == PriorityName(q) ==> p == q
  {
    match p
    case Low => assert Lower("LOW") == "low";
    case Medium => assert Lower("MEDIUM") == "medium";
    case High => assert Lower("HIGH") == "high";
  }

  /** Which key the requester id is stored under: "student_id", or "staff_id" for staff issues. */
  datatype Requester = StudentId(id: string) | StaffId(id: string)

  /** The category-specific keys of a ticket. */
  datatype Details =
    | NoDetails
    | FreezeWindow(freezeStart: string, freezeEnd: string)
    | UnfreezeDate(unfreezeDate: string)
    | BonusType(bonusType: string)
    | GroupChange(reason: string, preferences: string)
    | PlatformIssue(issueType: string)
    | CertificatePurpose(purpose: string)
    | Extension(requestType: string, details: string)
    | Invitee(inviteeName: string, inviteeTelegram: string, inviteePhone: string)

  /** The ticket dictionary. `kind` is the "type" key; optional keys some handlers omit are Options. */
  datatype Ticket = Ticket(
    ticketId: string,
    kind: string,
    status: string,
    priority: Priority,
    description: string,
    requester: Requester,
    createdAt: string,
    estimatedResponse: string,
    details: Details,
    actionsRequired: Option<seq<string>>,
    assignedTo: Option<string>,
    category: Option<string>)

  /** `{"success": ..., "message": ..., "ticket": ...}`. */
  datatype HandlerResult = HandlerResult(success: bool, message: string, ticket: Ticket)

  /** What every handler promises about its result: success, an open ticket whose id is
      `prefix-NNNN` with NNNN = abs(hash(key)) % 10000 (so it reads back as that prefix and
      number), the normalised requester, the given creation time, and a message that quotes
      `#<ticket id>`. */
  predicate Issued(r: HandlerResult, prefix: string, hash: string -> int, key: string,
                   requester: Requester, createdAt: string)
  {
    && r.success
    && r.ticket.status == "open"
    && r.ticket.ticketId == MakeTicketId(prefix, hash, key)
    && r.ticket.requester == requester
    && r.ticket.createdAt == createdAt
    && Contains(r.message, "#" + r.ticket.ticketId)
  }

  /** Two issued tickets whose prefixes differ never share an id, whatever the hashes do and
      whenever each was created. */
  lemma IssuedPrefixesSeparate(r: HandlerResult, p: string, k: string, hash: string -> int, who: Requester,
                               createdAt: string, q: HandlerResult, p': string, k': string,
                               hash': string -> int, who': Requester, createdAt': string)
    requires Issued(r, p, hash, k, who, createdAt) && Issued(q, p', hash', k', who', createdAt')
    requires p != p'
    ensures r.ticket.ticketId != q.ticket.ticketId
  {
  }

  /** Builds the result from the message pieces around `#<ticket id>`; this is where the
      message is shown to quote the ticket id. */
  function Respond(head: string, ticket: Ticket, tail: string): (r: HandlerResult)
    ensures r.success && r.ticket == ticket
    ensures Contains(r.message, "#" + ticket.ticketId)
  {
    ContainsMiddle(head, "#" + ticket.ticketId, tail);
    HandlerResult(true, head + ("#" + ticket.ticketId) + tail, ticket)
  }

  // ---------------------------------------------------------------------------
  // The tools the agent can call
  // ---------------------------------------------------------------------------

  /** Every ticket handler, general and business-specific. */
  datatype Tool =
    | SubmitTechnicalIssueTool | RequestDocumentTool | ContactTeacherTool
    | RequestRefundTool | RequestFreezeTool | RequestUnfreezeTool | UseBonusTool | ChangeGroupOrTeacherTool
    | TechIssuePlatformTool | RequestAttendanceCertificateTool | ExtendOrPurchaseCourseTool
    | PartnerProgramRequestTool | StaffIssueTool

  /** The name the tool is registered under (its Python function name). */
  function ToolName(t: Tool): string
  {
    match t
    case SubmitTechnicalIssueTool => "submit_technical_issue"
    case RequestDocumentTool => "request_document"
    case ContactTeacherTool => "contact_teacher"
    case RequestRefundTool => "request_refund"
    case RequestFreezeTool => "request_freeze"
    case RequestUnfreezeTool => "request_unfreeze"
    case UseBonusTool => "use_bonus"
    case ChangeGroupOrTeacherTool => "change_group_or_teacher"
    case TechIssuePlatformTool => "tech_issue_platform"
    case RequestAttendanceCertificateTool => "request_attendance_certificate"
    case ExtendOrPurchaseCourseTool => "extend_or_purchase_course"
    case PartnerProgramRequestTool => "partner_program_request"
    case StaffIssueTool => "staff_issue"
  }

  /** The ticket-id prefix each tool writes. */
  function ToolPrefix(t: Tool): string
  {
    match t
    case SubmitTechnicalIssueTool => "TECH"
    case RequestDocumentTool => "DOC"
    case ContactTeacherTool => "MSG"
    case RequestRefundTool => "REFUND"
    case RequestFreezeTool => "FREEZE"
    case RequestUnfreezeTool => "UNFREEZE"
    case UseBonusTool => "BONUS"
    case ChangeGroupOrTeacherTool => "CHANGE"
    case TechIssuePlatformTool => "TECH"
    case RequestAttendanceCertificateTool => "CERT"
    case ExtendOrPurchaseCourseTool => "EXTEND"
    case PartnerProgramRequestTool => "PARTNER"
    case StaffIssueTool => "STAFF"
  }

  // ---------------------------------------------------------------------------
  // Keyword priority rules
  // ---------------------------------------------------------------------------

  /** One row of an ordered rule table: if any keyword occurs, the priority is `priority`. */
  datatype Rule = Rule(keywords: seq<string>, priority: Priority)

  predicate Fires(rule: Rule, text: string)
  {
    ContainsAny(text, rule.keywords)
  }

  /** No rule before index `i` fires. */
  predicate FirstFiring(rules: seq<Rule>, text: string, i: nat)
  {
    forall j :: 0 <= j < i && j < |rules| ==> !Fires(rules[j], text)
  }

  /** The first rule that fires decides; if none fires, `fallback` does. */
  function InferPriority(rules: seq<Rule>, fallback: Priority, text: string): (p: Priority)
    ensures (forall i :: 0 <= i < |rules| ==> !Fires(rules[i], text)) ==> p == fallback
    ensures forall i :: 0 <= i < |rules| && Fires(rules[i], text) && FirstFiring(rules, text, i) ==>
              p == rules[i].priority
  {
    if |rules| == 0 then fallback
    else if Fires(rules[0], text) then rules[0].priority
    else
      var p := InferPriority(rules[1..], fallback, text);
      assert forall i :: 1 <= i < |rules| ==> rules[i] == rules[1..][i - 1];
      p
  }
}
