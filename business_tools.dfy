/** The ten business-process handlers of the support bot (refund, freeze, unfreeze, bonus,
    group change, platform issue, attendance certificate, extension, partner referral, staff
    issue). Each normalises the requester id, derives `PREFIX-NNNN`, fills a ticket and a
    confirmation message, and reports success. `hash` is Python's string hash and
    `createdAt` the `datetime.now().isoformat()` text. */
module BusinessTools {
  import opened Wrappers
  import opened Text
  import opened TicketIds
  import opened Tickets

  // ---------------------------------------------------------------------------
  // 1. Refund
  // ---------------------------------------------------------------------------

  function RequestRefund(reason: string, studentId: Option<string>, hash: string -> int, createdAt: string)
    : (r: HandlerResult)
    ensures Issued(r, "REFUND", hash, reason + NormalizeId(studentId), StudentId(NormalizeId(studentId)), createdAt)
    ensures r.ticket.kind == "refund" && r.ticket.category == Some("Возврат средств")
    ensures r.ticket.priority == High
    ensures r.ticket.estimatedResponse == "24 часа"
    ensures r.ticket.assignedTo == Some("Операционный и Сервисный Директор")
  {
    var sid := NormalizeId(studentId);
    var id := MakeTicketId("REFUND", hash, reason + sid);
    var ticket := Ticket(
      id, "refund", "open", High,
      "Запрос на возврат средств. Причина: " + reason,
      StudentId(sid), createdAt, "24 часа", NoDetails, None,
      Some("Операционный и Сервисный Директор"), Some("Возврат средств"));
    Respond(
      "\U{2705} Спасибо за информацию. Мы обязательно рассмотрим Ваш запрос.\n\nТикет ",
      ticket,
      " передан операционному и сервисному директору.\n"
      + "Ваш запрос будет обработан в течение 24 часов.\n\n"
      + "Вы можете отслеживать статус в разделе 'Мои Заявки'.")
  }

  /** The refund ticket quotes the reason. */
  lemma RefundRecordsReason(reason: string, studentId: Option<string>, hash: string -> int, createdAt: string)
    ensures Contains(RequestRefund(reason, studentId, hash, createdAt).ticket.description, reason)
  {
    ContainsSelf(reason);
    ContainsRight("Запрос на возврат средств. Причина: ", reason, reason);
  }

  // ---------------------------------------------------------------------------
  // 2. Freeze
  // ---------------------------------------------------------------------------

  function RequestFreeze(durationStart: string, durationEnd: string, reason: string, studentId: Option<string>,
                         hash: string -> int, createdAt: string): (r: HandlerResult)
    ensures Issued(r, "FREEZE", hash, durationStart + NormalizeId(studentId), StudentId(NormalizeId(studentId)), createdAt)
    ensures r.ticket.kind == "freeze" && r.ticket.category == Some("Заморозка обучения")
    ensures r.ticket.priority == Medium
    ensures r.ticket.estimatedResponse == "24 часа"
    ensures r.ticket.details == FreezeWindow(durationStart, durationEnd)
    ensures r.ticket.assignedTo == None
  {
    var sid := NormalizeId(studentId);
    var id := MakeTicketId("FREEZE", hash, durationStart + sid);
    var ticket := Ticket(
      id, "freeze", "open", Medium,
      "Запрос на заморозку обучения с " + durationStart + " по " + durationEnd + ". Причина: " + reason,
      StudentId(sid), createdAt, "24 часа", FreezeWindow(durationStart, durationEnd),
      Some(["Оповестить учителей и кураторов",
            "Изменить статус на ЗАМОРОЗИТ в АльфаСРМ",
            "Обновить фикс. таблицу"]),
      None, Some("Заморозка обучения"));
    Respond(
      "\U{2705} Запрос на заморозку обучения с " + durationStart + " по " + durationEnd + " зарегистрирован.\n\nТикет ",
      ticket,
      " создан.\n\n"
      + "Администратор выполнит необходимые действия:\n"
      + "• Уведомит учителей и кураторов\n"
      + "• Изменит статус в системе на 'ЗАМОРОЗИТ'\n"
      + "• Обновит все необходимые таблицы\n\n"
      + "Вы получите уведомление об активации заморозки.")
  }

  /** The freeze description names both dates of the window and the reason. */
  lemma FreezeDescribesWindow(durationStart: string, durationEnd: string, reason: string, studentId: Option<string>,
                              hash: string -> int, createdAt: string)
    ensures var d := RequestFreeze(durationStart, durationEnd, reason, studentId, hash, createdAt).ticket.description;
      Contains(d, durationStart) && Contains(d, durationEnd) && Contains(d, reason)
  {
    var a := "Запрос на заморозку обучения с ";
    var b := " по ";
    var c := ". Причина: ";
    ContainsSelf(durationStart);
    ContainsSelf(durationEnd);
    ContainsSelf(reason);
    ContainsRight(a, durationStart, durationStart);
    ContainsLeft(a + durationStart, b, durationStart);
    ContainsLeft(a + durationStart + b, durationEnd, durationStart);
    ContainsLeft(a + durationStart + b + durationEnd, c, durationStart);
    ContainsLeft(a + durationStart + b + durationEnd + c, reason, durationStart);
    ContainsRight(a + durationStart + b, durationEnd, durationEnd);
    ContainsLeft(a + durationStart + b + durationEnd, c, durationEnd);
    ContainsLeft(a + durationStart + b + durationEnd + c, reason, durationEnd);
    ContainsRight(a + durationStart + b + durationEnd + c, reason, reason);
  }

  // ---------------------------------------------------------------------------
  // 3. Unfreeze
  // ---------------------------------------------------------------------------

  function RequestUnfreeze(preferredDate: string, studentId: Option<string>, hash: string -> int, createdAt: string)
    : (r: HandlerResult)
    ensures Issued(r, "UNFREEZE", hash, preferredDate + NormalizeId(studentId), StudentId(NormalizeId(studentId)), createdAt)
    ensures r.ticket.kind == "unfreeze" && r.ticket.category == Some("Разморозка обучения")
    ensures r.ticket.priority == Medium
    ensures r.ticket.estimatedResponse == "24 часа"
    ensures r.ticket.details == UnfreezeDate(preferredDate)
    ensures r.ticket.assignedTo == None
    ensures Contains(r.ticket.description, preferredDate)
  {
    var sid := NormalizeId(studentId);
    var id := MakeTicketId("UNFREEZE", hash, preferredDate + sid);
    var description := "Запрос на разморозку обучения с " + preferredDate;
    ContainsSelf(preferredDate);
    ContainsRight("Запрос на разморозку обучения с ", preferredDate, preferredDate);
    var ticket := Ticket(
      id, "unfreeze", "open", Medium, description,
      StudentId(sid), createdAt, "24 часа", UnfreezeDate(preferredDate),
      Some(["Проверить свободные группы для уровня студента",
            "Проверить остаток уроков в Альфа СРМ",
            "Уведомить куратора и учителя",
            "Изменить статус на Активный",
            "Добавить в группу в CRM",
            "Обновить фикс. таблицу"]),
      None, Some("Разморозка обучения"));
    Respond(
      "\U{2705} Запрос на разморозку и продолжение обучения с " + preferredDate + " зарегистрирован.\n\nТикет ",
      ticket,
      " создан.\n\n"
      + "Администратор:\n"
      + "• Проверит наличие свободных групп для Вашего уровня\n"
      + "• Подтвердит количество оставшихся уроков\n"
      + "• Свяжется с Вами с вариантами групп\n\n"
      + "\U{26A0}\U{FE0F} Обратите внимание: Вы продолжите обучение с количеством уроков, "
      + "согласно данным в CRM.")
  }

  // ---------------------------------------------------------------------------
  // 4. Bonus
  // ---------------------------------------------------------------------------

  function UseBonus(bonusType: string, details: string, studentId: Option<string>, hash: string -> int, createdAt: string)
    : (r: HandlerResult)
    ensures Issued(r, "BONUS", hash, bonusType + NormalizeId(studentId), StudentId(NormalizeId(studentId)), createdAt)
    ensures r.ticket.kind == "bonus" && r.ticket.category == Some("Использование бонусов")
    ensures r.ticket.priority == Low
    ensures r.ticket.estimatedResponse == "24 часа"
    ensures r.ticket.details == BonusType(bonusType)
    ensures r.ticket.assignedTo == None
  {
    var sid := NormalizeId(studentId);
    var id := MakeTicketId("BONUS", hash, bonusType + sid);
    var ticket := Ticket(
      id, "bonus", "open", Low,
      "Запрос на использование бонуса: " + bonusType + ". Детали: " + details,
      StudentId(sid), createdAt, "24 часа", BonusType(bonusType),
      Some(["Проверить наличие бонуса в ФИХ таблице",
            "Предоставить бонус согласно типу",
            "Обновить статус бонуса"]),
      None, Some("Использование бонусов"));
    Respond(
      "\U{2705} Заявка на активацию бонуса '" + bonusType + "' зарегистрирована.\n\nТикет ",
      ticket,
      " создан.\n\n"
      + "Администратор:\n"
      + "• Проверит наличие Вашего бонуса в системе\n"
      + "• Активирует бонус согласно типу\n"
      + "• Свяжется с Вами для подтверждения\n\n"
      + "Ожидайте ответа в течение 24 часов.")
  }

  /** The bonus description names the bonus and the details. */
  lemma BonusDescribesRequest(bonusType: string, details: string, studentId: Option<string>,
                              hash: string -> int, createdAt: string)
    ensures var d := UseBonus(bonusType, details, studentId, hash, createdAt).ticket.description;
      Contains(d, bonusType) && Contains(d, details)
  {
    var a := "Запрос на использование бонуса: ";
    var b := ". Детали: ";
    ContainsSelf(bonusType);
    ContainsSelf(details);
    ContainsRight(a, bonusType, bonusType);
    ContainsLeft(a + bonusType, b, bonusType);
    ContainsLeft(a + bonusType + b, details, bonusType);
    ContainsRight(a + bonusType + b, details, details);
  }

  // ---------------------------------------------------------------------------
  // 5. Group or teacher change
  // ---------------------------------------------------------------------------

  function ChangeGroupOrTeacher(reason: string, preferences: string, studentId: Option<string>,
                                hash: string -> int, createdAt: string): (r: HandlerResult)
    ensures Issued(r, "CHANGE", hash, reason + NormalizeId(studentId), StudentId(NormalizeId(studentId)), createdAt)
    ensures r.ticket.kind == "group_change" && r.ticket.category == Some("Смена группы/учителя")
    ensures r.ticket.priority == Medium
    ensures r.ticket.estimatedResponse == "48 часов"
    ensures r.ticket.details == GroupChange(reason, preferences)
    ensures r.ticket.description == "Запрос на смену группы/учителя. Причина: " + reason + ". Пожелания: " + preferences
    ensures r.ticket.assignedTo == Some("Операционный директор")
  {
    var sid := NormalizeId(studentId);
    var id := MakeTicketId("CHANGE", hash, reason + sid);
    var ticket := Ticket(
      id, "group_change", "open", Medium,
      "Запрос на смену группы/учителя. Причина: " + reason + ". Пожелания: " + preferences,
      StudentId(sid), createdAt, "48 часов", GroupChange(reason, preferences),
      Some(["Получить разрешение операционного директора",
            "Предложить свободные группы",
            "Проверить совпадение количества уроков",
            "Обновить CRM и фикс. таблицу",
            "Уведомить учителей и кураторов"]),
      Some("Операционный директор"), Some("Смена группы/учителя"));
    Respond(
      "\U{2705} Заявка на смену группы/учителя зарегистрирована.\n\nТикет ",
      ticket,
      " создан.\n\n"
      + "Ваш запрос будет обработан операционным директором.\n\n"
      + "Администратор:\n"
      + "• Получит необходимое разрешение\n"
      + "• Подберет подходящие варианты групп\n"
      + "• Свяжется с Вами с предложениями\n\n"
      + "Ожидайте ответа в течение 48 часов.")
  }

  // ---------------------------------------------------------------------------
  // 6. Technical problem with links or the platform
  // ---------------------------------------------------------------------------

  /** Login failure or access terms make a platform issue urgent. */
  const PlatformRules: seq<Rule> := [Rule(["не могу войти", "доступ"], High)]

  /** `"high" if "не могу войти" in d.lower() or "доступ" in d.lower() else "medium"`. */
  function PlatformPriority(description: string): Priority
  {
    InferPriority(PlatformRules, Medium, Lower(description))
  }

  function TechIssuePlatform(issueType: string, description: string, studentId: Option<string>,
                             hash: string -> int, createdAt: string): (r: HandlerResult)
    ensures Issued(r, "TECH", hash, description + NormalizeId(studentId), StudentId(NormalizeId(studentId)), createdAt)
    ensures r.ticket.kind == "technical_platform" && r.ticket.category == Some("Технические проблемы")
    ensures r.ticket.priority == PlatformPriority(description)
    ensures r.ticket.estimatedResponse == (if r.ticket.priority == High then "4 часа" else "12 часов")
    ensures r.ticket.details == PlatformIssue(issueType)
    ensures r.ticket.description == "Техническая проблема (" + issueType + "): " + description
    ensures r.ticket.assignedTo == Some("Куратор")
  {
    var sid := NormalizeId(studentId);
    var id := MakeTicketId("TECH", hash, description + sid);
    var priority := PlatformPriority(description);
    var ticket := Ticket(
      id, "technical_platform", "open", priority,
      "Техническая проблема (" + issueType + "): " + description,
      StudentId(sid), createdAt, if priority == High then "4 часа" else "12 часов",
      PlatformIssue(issueType),
      Some(["Проверить доступ студента",
            "Предоставить рабочие ссылки",
            "Проверить/предоставить пароли при необходимости",
            "Убедиться, что проблема решена"]),
      Some("Куратор"), Some("Технические проблемы"));
    Respond(
      "\U{2705} Тикет ",
      ticket,
      " создан для решения технической проблемы.\n\n"
      + "Ваш куратор:\n"
      + "• Проверит Ваш доступ к платформе\n"
      + "• Предоставит рабочие ссылки\n"
      + "• Проверит правильность паролей\n"
      + "• Убедится, что всё работает\n\n"
      + "Ожидайте ответа в ближайшее время.")
  }

  /** A platform issue is high exactly when the lower-cased description mentions a login
      failure or access, and medium otherwise; the answer does not depend on letter case. */
  lemma PlatformPriorityRule(description: string)
    ensures var lower := Lower(description);
      PlatformPriority(description) == High <==> (Contains(lower, "не могу войти") || Contains(lower, "доступ"))
    ensures PlatformPriority(description) != Low
    ensures PlatformPriority(Lower(description)) == PlatformPriority(description)
  {
    var lower := Lower(description);
    var keywords := PlatformRules[0].keywords;
    assert ContainsAny(lower, keywords) <==> Contains(lower, keywords[0]) || Contains(lower, keywords[1]);
    LowerIdempotent(description);
  }

  // ---------------------------------------------------------------------------
  // 7. Attendance certificate
  // ---------------------------------------------------------------------------

  function RequestAttendanceCertificate(purpose: string, studentId: Option<string>, hash: string -> int, createdAt: string)
    : (r: HandlerResult)
    ensures Issued(r, "CERT", hash, purpose + NormalizeId(studentId), StudentId(NormalizeId(studentId)), createdAt)
    ensures r.ticket.kind == "certificate" && r.ticket.category == Some("Справка о присутствии")
    ensures r.ticket.priority == Medium
    ensures r.ticket.estimatedResponse == "3 рабочих дня"
    ensures r.ticket.details == CertificatePurpose(purpose)
    ensures r.ticket.assignedTo == Some("Бухгалтер")
    ensures Contains(r.ticket.description, purpose)
  {
    var sid := NormalizeId(studentId);
    var id := MakeTicketId("CERT", hash, purpose + sid);
    var description := "Запрос на справку о присутствии на курсах. Цель: " + purpose;
    ContainsSelf(purpose);
    ContainsRight("Запрос на справку о присутствии на курсах. Цель: ", purpose, purpose);
    var ticket := Ticket(
      id, "certificate", "open", Medium, description,
      StudentId(sid), createdAt, "3 рабочих дня", CertificatePurpose(purpose),
      Some(["Отправить студенту шаблон в Word",
            "Получить заполненный шаблон",
            "Передать бухгалтеру для подписания",
            "Отправить подписанную справку студенту"]),
      Some("Бухгалтер"), Some("Справка о присутствии"));
    Respond(
      "\U{2705} Запрос на справку о присутствии зарегистрирован.\n\nТикет ",
      ticket,
      " создан.\n\n"
      + "Процесс оформления:\n"
      + "1. Вы получите шаблон справки в Word формате\n"
      + "2. Заполните необходимые данные\n"
      + "3. Отправьте заполненный шаблон обратно\n"
      + "4. Бухгалтер подпишет справку\n"
      + "5. Вы получите готовую справку\n\n"
      + "Ожидаемый срок: 3 рабочих дня.")
  }

  // ---------------------------------------------------------------------------
  // 8. Extension or additional purchase
  // ---------------------------------------------------------------------------

  /** The sales lead handles additional purchases ("допродажа"); the accountant handles
      everything else, extensions included. */
  const SalesLead: string := "РОП (Руководитель отдела продаж)"
  const Accountant: string := "Бухгалтер"

  function ExtensionAssignee(requestType: string): string
  {
    if requestType == "допродажа" then SalesLead else Accountant
  }

  function ExtendOrPurchaseCourse(requestType: string, details: string, studentId: Option<string>,
                                  hash: string -> int, createdAt: string): (r: HandlerResult)
    ensures Issued(r, "EXTEND", hash, details + NormalizeId(studentId), StudentId(NormalizeId(studentId)), createdAt)
    ensures r.ticket.kind == "extension" && r.ticket.category == Some("Продление/Докупка курсов")
    ensures r.ticket.priority == Medium
    ensures r.ticket.estimatedResponse == "24 часа"
    ensures r.ticket.details == Extension(requestType, details)
    ensures r.ticket.description == "Запрос на " + requestType + " курсов. Детали: " + details
    ensures r.ticket.assignedTo == Some(ExtensionAssignee(requestType))
    ensures r.ticket.actionsRequired.Some? && |r.ticket.actionsRequired.value| == 4
    ensures r.ticket.actionsRequired.value[0] == "Отправить данные " + ExtensionAssignee(requestType) + " по шаблону"
    ensures Contains(r.message, "Ваши данные отправлены " + ExtensionAssignee(requestType) + ".")
  {
    var sid := NormalizeId(studentId);
    var id := MakeTicketId("EXTEND", hash, details + sid);
    var assignedTo := ExtensionAssignee(requestType);
    var ticket := Ticket(
      id, "extension", "open", Medium,
      "Запрос на " + requestType + " курсов. Детали: " + details,
      StudentId(sid), createdAt, "24 часа", Extension(requestType, details),
      Some(["Отправить данные " + assignedTo + " по шаблону",
            "Связаться с клиентом для уточнения деталей",
            "Подтвердить оплату",
            "Обновить данные в CRM"]),
      Some(assignedTo), Some("Продление/Докупка курсов"));
    var head := "\U{2705} Запрос на " + requestType + " курсов зарегистрирован.\n\nТикет ";
    var sent := "Ваши данные отправлены " + assignedTo + ".";
    var rest := "\n\n"
      + "С Вами свяжутся для:\n"
      + "• Уточнения деталей запроса\n"
      + "• Предоставления информации об оплате\n"
      + "• Подтверждения изменений\n\n"
      + "Ожидайте звонка в течение 24 часов.";
    var tail := " создан.\n\n" + sent + rest;
    ContainsMiddle(" создан.\n\n", sent, rest);
    ContainsRight(head + ("#" + id), tail, sent);
    Respond(head, ticket, tail)
  }

  /** The sales lead is assigned exactly for "допродажа", compared case-sensitively. */
  lemma ExtensionAssigneeRule(requestType: string)
    ensures ExtensionAssignee(requestType) == SalesLead <==> requestType == "допродажа"
    ensures ExtensionAssignee(requestType) != SalesLead ==> ExtensionAssignee(requestType) == Accountant
  {
  }

  // ---------------------------------------------------------------------------
  // 9. Partner programme
  // ---------------------------------------------------------------------------

  function PartnerProgramRequest(inviteeName: string, inviteeTelegram: string, inviteePhone: string,
                                 studentId: Option<string>, hash: string -> int, createdAt: string): (r: HandlerResult)
    ensures Issued(r, "PARTNER", hash, inviteeName + NormalizeId(studentId), StudentId(NormalizeId(studentId)), createdAt)
    ensures r.ticket.kind == "partner_program" && r.ticket.category == Some("Партнерская программа")
    ensures r.ticket.priority == Low
    ensures r.ticket.estimatedResponse == "48 часов"
    ensures r.ticket.details == Invitee(inviteeName, inviteeTelegram, inviteePhone)
    ensures r.ticket.assignedTo == None
    ensures Contains(r.ticket.description, inviteeName)
  {
    var sid := NormalizeId(studentId);
    var id := MakeTicketId("PARTNER", hash, inviteeName + sid);
    var description := "Запрос по партнерской программе. Приглашенный: " + inviteeName;
    ContainsSelf(inviteeName);
    ContainsRight("Запрос по партнерской программе. Приглашенный: ", inviteeName, inviteeName);
    var ticket := Ticket(
      id, "partner_program", "open", Low, description,
      StudentId(sid), createdAt, "48 часов", Invitee(inviteeName, inviteeTelegram, inviteePhone),
      Some(["Связаться с приглашенным",
            "Подтвердить источник (от кого пришел)",
            "Проверить статус в Альфа СРМ",
            "Начислить бонус партнеру при подтверждении"]),
      None, Some("Партнерская программа"));
    Respond(
      "\U{2705} Запрос по партнерской программе зарегистрирован.\n\nТикет ",
      ticket,
      " создан.\n\n"
      + "Данные приглашенного:\n"
      + "• ФИО: " + inviteeName + "\n"
      + "• Telegram: " + inviteeTelegram + "\n"
      + "• Телефон: " + inviteePhone + "\n\n"
      + "Администратор:\n"
      + "• Свяжется с приглашенным для подтверждения\n"
      + "• Проверит данные в CRM\n"
      + "• Начислит Вам бонус при успешном подтверждении\n\n"
      + "Результат проверки будет отправлен в течение 48 часов.")
  }

  // ---------------------------------------------------------------------------
  // 10. Staff issue
  // ---------------------------------------------------------------------------

  const StaffUrgentWords: seq<string> := ["срочно", "критично", "не работает"]
  const StaffQuestionWords: seq<string> := ["вопрос", "уточнить"]

  /** Urgency terms are checked first, then question terms; neither gives medium. */
  const StaffRules: seq<Rule> := [Rule(StaffUrgentWords, High), Rule(StaffQuestionWords, Low)]

  function StaffPriority(issueDescription: string): Priority
  {
    InferPriority(StaffRules, Medium, Lower(issueDescription))
  }

  function StaffIssue(issueDescription: string, staffId: Option<string>, hash: string -> int, createdAt: string)
    : (r: HandlerResult)
    ensures Issued(r, "STAFF", hash, issueDescription + NormalizeId(staffId), StaffId(NormalizeId(staffId)), createdAt)
    ensures r.ticket.kind == "staff_issue" && r.ticket.category == Some("Проблемы сотрудников")
    ensures r.ticket.priority == StaffPriority(issueDescription)
    ensures r.ticket.estimatedResponse == (if r.ticket.priority == High then "4 часа" else "24 часа")
    ensures r.ticket.assignedTo == Some("Администратор/Руководитель")
    ensures Contains(r.message, "Приоритет: " + PriorityUpper(r.ticket.priority))
    ensures Contains(r.ticket.description, issueDescription)
  {
    var sid := NormalizeId(staffId);
    var id := MakeTicketId("STAFF", hash, issueDescription + sid);
    var priority := StaffPriority(issueDescription);
    var description := "Проблема сотрудника: " + issueDescription;
    ContainsSelf(issueDescription);
    ContainsRight("Проблема сотрудника: ", issueDescription, issueDescription);
    var ticket := Ticket(
      id, "staff_issue", "open", priority, description,
      StaffId(sid), createdAt, if priority == High then "4 часа" else "24 часа", NoDetails,
      Some(["Изучить суть проблемы",
            "Определить ответственного",
            "Решить проблему",
            "Подтвердить решение"]),
      Some("Администратор/Руководитель"), Some("Проблемы сотрудников"));
    var head := "\U{2705} Тикет ";
    var shown := "Приоритет: " + PriorityUpper(priority);
    var rest := "\n\n"
      + "Ваша проблема будет рассмотрена администратором.\n"
      + "Ожидайте ответа в ближайшее время.\n\n"
      + "Вы можете отслеживать статус в системе.";
    var tail := " создан для решения Вашей проблемы.\n\n" + shown + rest;
    ContainsMiddle(" создан для решения Вашей проблемы.\n\n", shown, rest);
    ContainsRight(head + ("#" + id), tail, shown);
    Respond(head, ticket, tail)
  }

  /** The staff rule table: an urgency term gives high whatever else occurs; otherwise a
      question term gives low; otherwise medium. */
  lemma StaffPriorityRule(issueDescription: string)
    ensures var lower := Lower(issueDescription);
      (StaffPriority(issueDescription) == High <==> ContainsAny(lower, StaffUrgentWords))
      && (StaffPriority(issueDescription) == Low <==>
            !ContainsAny(lower, StaffUrgentWords) && ContainsAny(lower, StaffQuestionWords))
      && (StaffPriority(issueDescription) == Medium <==>
            !ContainsAny(lower, StaffUrgentWords) && !ContainsAny(lower, StaffQuestionWords))
  {
    var lower := Lower(issueDescription);
    assert Fires(StaffRules[0], lower) == ContainsAny(lower, StaffUrgentWords);
    assert Fires(StaffRules[1], lower) == ContainsAny(lower, StaffQuestionWords);
    assert FirstFiring(StaffRules, lower, 0);
  }

  // ---------------------------------------------------------------------------
  // The BUSINESS_TOOLS list
  // ---------------------------------------------------------------------------

  /** The business handlers in the order the tool list registers them. */
  const BusinessToolList: seq<Tool> := [
    RequestRefundTool, RequestFreezeTool, RequestUnfreezeTool, UseBonusTool,
    ChangeGroupOrTeacherTool, TechIssuePlatformTool, RequestAttendanceCertificateTool,
    ExtendOrPurchaseCourseTool, PartnerProgramRequestTool, StaffIssueTool]
}
