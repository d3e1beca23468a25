/** The three general administrative handlers (technical issue, document request, message to a
    teacher), the full tool list the agent is built with, and how ticket ids of different
    tools relate. `hash` is Python's string hash and `createdAt` the
    `datetime.now().isoformat()` text, as in the business handlers. */
module Tools {
  import opened Wrappers
  import opened Text
  import opened TicketIds
  import opened Tickets
  import BusinessTools

  // ---------------------------------------------------------------------------
  // submit_technical_issue
  // ---------------------------------------------------------------------------

  const TechnicalUrgentWords: seq<string> := ["не могу войти", "срочно", "важно", "критично"]
  const TechnicalQuestionWords: seq<string> := ["вопрос", "уточнить", "помощь"]

  /** Urgency terms are checked first, then question terms; neither gives medium. */
  const TechnicalRules: seq<Rule> := [Rule(TechnicalUrgentWords, High), Rule(TechnicalQuestionWords, Low)]

  function TechnicalPriority(description: string): Priority
  {
    InferPriority(TechnicalRules, Medium, Lower(description))
  }

  /** The technical-issue rule table: an urgency term gives high whatever else occurs;
      otherwise a question term gives low; otherwise medium. */
  lemma TechnicalPriorityRule(description: string)
    ensures var lower := Lower(description);
      (TechnicalPriority(description) == High <==> ContainsAny(lower, TechnicalUrgentWords))
      && (TechnicalPriority(description) == Low <==>
            !ContainsAny(lower, TechnicalUrgentWords) && ContainsAny(lower, TechnicalQuestionWords))
      && (TechnicalPriority(description) == Medium <==>
            !ContainsAny(lower, TechnicalUrgentWords) && !ContainsAny(lower, TechnicalQuestionWords))
  {
    var lower := Lower(description);
    assert Fires(TechnicalRules[0], lower) == ContainsAny(lower, TechnicalUrgentWords);
    assert Fires(TechnicalRules[1], lower) == ContainsAny(lower, TechnicalQuestionWords);
    assert FirstFiring(TechnicalRules, lower, 0);
  }

  function TechnicalSla(p: Priority): string
  {
    if p != High then "24 часа" else "4 часа"
  }

  function SubmitTechnicalIssue(description: string, studentId: Option<string>, hash: string -> int, createdAt: string)
    : (r: HandlerResult)
    ensures Issued(r, "TECH", hash, description + NormalizeId(studentId), StudentId(NormalizeId(studentId)), createdAt)
    ensures r.ticket.kind == "technical"
    ensures r.ticket.priority == TechnicalPriority(description)
    ensures r.ticket.estimatedResponse == (if r.ticket.priority == High then "4 часа" else "24 часа")
    ensures r.ticket.description == description
    ensures r.ticket.details == NoDetails && r.ticket.actionsRequired == None
    ensures r.ticket.assignedTo == None && r.ticket.category == None
    ensures Contains(r.message, "Приоритет: " + PriorityName(r.ticket.priority))
    ensures Contains(r.message, r.ticket.estimatedResponse)
    ensures Contains(r.message, description)
  {
    var sid := NormalizeId(studentId);
    var id := MakeTicketId("TECH", hash, description + sid);
    var priority := TechnicalPriority(description);
    var sla := TechnicalSla(priority);
    var ticket := Ticket(
      id, "technical", "open", priority, description,
      StudentId(sid), createdAt, sla, NoDetails, None, None, None);
    var head := "\U{2705} Тикет ";
    var a := " успешно создан!\n\nВаша заявка принята в работу. Техническая поддержка свяжется с вами в течение ";
    var c := ".\n\nОписание проблемы: ";
    var nl := "\n";
    var shown := "Приоритет: " + PriorityName(priority);
    var tail := a + sla + c + description + nl + shown;
    ContainsMiddle(a, sla, c);
    ContainsLeft(a + sla + c, description, sla);
    ContainsLeft(a + sla + c + description, nl, sla);
    ContainsLeft(a + sla + c + description + nl, shown, sla);
    ContainsMiddle(a + sla + c, description, nl);
    ContainsLeft(a + sla + c + description + nl, shown, description);
    ContainsSelf(shown);
    ContainsRight(a + sla + c + description + nl, shown, shown);
    ContainsRight(head + ("#" + id), tail, shown);
    ContainsRight(head + ("#" + id), tail, sla);
    ContainsRight(head + ("#" + id), tail, description);
    Respond(head, ticket, tail)
  }

  // ---------------------------------------------------------------------------
  // request_document
  // ---------------------------------------------------------------------------

  function RequestDocument(documentType: string, studentId: Option<string>, hash: string -> int, createdAt: string)
    : (r: HandlerResult)
    ensures Issued(r, "DOC", hash, documentType + NormalizeId(studentId), StudentId(NormalizeId(studentId)), createdAt)
    ensures r.ticket.kind == "document"
    ensures r.ticket.priority == Low
    ensures r.ticket.estimatedResponse == "3 рабочих дня"
    ensures Contains(r.ticket.description, documentType)
    ensures Contains(r.message, "'" + documentType + "'")
    ensures r.ticket.details == NoDetails && r.ticket.actionsRequired == None
    ensures r.ticket.assignedTo == None && r.ticket.category == None
  {
    var sid := NormalizeId(studentId);
    var id := MakeTicketId("DOC", hash, documentType + sid);
    var description := "Запрос на получение документа: " + documentType;
    ContainsSelf(documentType);
    ContainsRight("Запрос на получение документа: ", documentType, documentType);
    var ticket := Ticket(
      id, "document", "open", Low, description,
      StudentId(sid), createdAt, "3 рабочих дня", NoDetails, None, None, None);
    var pre := "\U{1F4C4} Запрос на получение документа ";
    var quoted := "'" + documentType + "'";
    var post := " принят.\n\nТикет ";
    ContainsMiddle(pre, quoted, post);
    var tail := " создан.\nДокумент будет готов в течение 3 рабочих дней.\nВы получите уведомление на email.";
    ContainsLeft(pre + quoted + post, "#" + id, quoted);
    ContainsLeft(pre + quoted + post + ("#" + id), tail, quoted);
    Respond(pre + quoted + post, ticket, tail)
  }

  // ---------------------------------------------------------------------------
  // contact_teacher
  // ---------------------------------------------------------------------------

  function ContactTeacher(teacherName: string, subject: string, message: string, studentId: Option<string>,
                          hash: string -> int, createdAt: string): (r: HandlerResult)
    ensures Issued(r, "MSG", hash, message + NormalizeId(studentId), StudentId(NormalizeId(studentId)), createdAt)
    ensures r.ticket.kind == "teacher-message"
    ensures r.ticket.priority == Medium
    ensures r.ticket.estimatedResponse == "1-2 рабочих дня"
    ensures r.ticket.description == "Сообщение для преподавателя " + teacherName + " (" + subject + "): " + message
    ensures r.ticket.details == NoDetails && r.ticket.actionsRequired == None
    ensures r.ticket.assignedTo == None && r.ticket.category == None
    ensures Contains(r.message, "преподавателю " + teacherName + " (" + subject + ")")
  {
    var sid := NormalizeId(studentId);
    var id := MakeTicketId("MSG", hash, message + sid);
    var ticket := Ticket(
      id, "teacher-message", "open", Medium,
      "Сообщение для преподавателя " + teacherName + " (" + subject + "): " + message,
      StudentId(sid), createdAt, "1-2 рабочих дня", NoDetails, None, None, None);
    var pre := "\U{2709}\U{FE0F} Сообщение отправлено ";
    var who := "преподавателю " + teacherName + " (" + subject + ")";
    var post := ".\n\nТикет ";
    ContainsMiddle(pre, who, post);
    var tail := " создан.\nВы получите ответ в течение 1-2 рабочих дней.";
    ContainsLeft(pre + who + post, "#" + id, who);
    ContainsLeft(pre + who + post + ("#" + id), tail, who);
    Respond(pre + who + post, ticket, tail)
  }

  /** The teacher ticket carries the whole message. */
  lemma TeacherTicketCarriesMessage(teacherName: string, subject: string, message: string, studentId: Option<string>,
                                    hash: string -> int, createdAt: string)
    ensures Contains(ContactTeacher(teacherName, subject, message, studentId, hash, createdAt).ticket.description, message)
  {
    ContainsSelf(message);
    ContainsRight("Сообщение для преподавателя " + teacherName + " (" + subject + "): ", message, message);
  }

  // ---------------------------------------------------------------------------
  // The TOOLS list and tool lookup
  // ---------------------------------------------------------------------------

  /** The general handlers, registered ahead of the business ones. */
  const GeneralToolList: seq<Tool> := [SubmitTechnicalIssueTool, RequestDocumentTool, ContactTeacherTool]

  /** `TOOLS`: the general handlers followed by the business handlers. */
  const AllTools: seq<Tool> := GeneralToolList + BusinessTools.BusinessToolList

  /** The first registered tool with the given name. */
  function LookupIn(tools: seq<Tool>, name: string): (r: Option<Tool>)
    ensures r.Some? ==> r.value in tools && ToolName(r.value) == name
    ensures r.None? ==> forall i :: 0 <= i < |tools| ==> ToolName(tools[i]) != name
  {
    if |tools| == 0 then None
    else if ToolName(tools[0]) == name then Some(tools[0])
    else
      var r := LookupIn(tools[1..], name);
      assert forall i :: 1 <= i < |tools| ==> tools[i] == tools[1..][i - 1];
      r
  }

  function LookupTool(name: string): (r: Option<Tool>)
    ensures r.Some? ==> ToolName(r.value) == name
  {
    LookupIn(AllTools, name)
  }

  /** No two tools share a registered name. */
  lemma ToolNamesDistinct(t: Tool, u: Tool)
    ensures ToolName(t) == ToolName(u) ==> t == u
  {
  }

  /** The tool list registers all thirteen handlers, each exactly once. */
  lemma AllToolsComplete(t: Tool)
    ensures |AllTools| == 13
    ensures t in AllTools
    ensures forall i, j :: 0 <= i < j < |AllTools| ==> AllTools[i] != AllTools[j]
  {
  }

  /** Every registered tool is found under its own name, and a name no tool has finds nothing. */
  lemma LookupByName(t: Tool, name: string)
    ensures LookupTool(ToolName(t)) == Some(t)
    ensures (forall u: Tool :: ToolName(u) != name) ==> LookupTool(name) == None
  {
    AllToolsComplete(t);
    var r := LookupTool(ToolName(t));
    if r.Some? {
      ToolNamesDistinct(r.value, t);
    }
  }

  // ---------------------------------------------------------------------------
  // Ticket ids across tools
  // ---------------------------------------------------------------------------

  /** The only prefix two tools share is TECH: the general and the platform technical handlers. */
  lemma SharedPrefixIsTech(t: Tool, u: Tool)
    requires t != u && ToolPrefix(t) == ToolPrefix(u)
    ensures {t, u} == {SubmitTechnicalIssueTool, TechIssuePlatformTool}
  {
  }

  /** The same description from the same student gets the same ticket id from both technical
      handlers, whatever the platform issue type: the two tickets cannot be told apart by id,
      only by their type ("technical" against "technical_platform") and category. */
  lemma TechIdsCollide(description: string, issueType: string, studentId: Option<string>,
                       hash: string -> int, createdAt: string)
    ensures var general := SubmitTechnicalIssue(description, studentId, hash, createdAt).ticket;
      var platform := BusinessTools.TechIssuePlatform(issueType, description, studentId, hash, createdAt).ticket;
      && general.ticketId == platform.ticketId
      && general.kind == "technical" && platform.kind == "technical_platform"
      && general.category == None && platform.category == Some("Технические проблемы")
  {
  }
}
