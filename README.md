# Master Education support bot: ticket dispatch core

This project models the deterministic part of the Master Education student-support bot and
proves properties of it. It covers four parts.

- **The thirteen ticket handlers** the agent can call: three general ones (technical issue,
  document request, message to a teacher) and ten business ones (refund, freeze, unfreeze,
  bonus, group change, platform issue, attendance certificate, course extension, partner
  referral, staff issue). Each handler:
  - normalises the requester id;
  - derives a ticket id `PREFIX-NNNN` from `abs(hash(text + id)) % 10000`;
  - picks a priority, an SLA text and an assignee, either fixed or from ordered keyword rules;
  - returns a success flag, a confirmation message and the ticket.

  Handlers are pure functions returning a `HandlerResult` record in place of the JSON text.
- **The tool list**: the general tools followed by the business tools, and lookup by name.
- **The `StudentSupportAgent` class**. Its constructor stores the normalised requester id.
  `Chat` converts the history in a loop, calls the executor, and splits its output into a reply
  and an optional ticket. It falls back to an apology when something raises. `ChatStream`
  re-emits the reply word by word.
- **The frontend mock chat endpoint**: the keyword rule table `getAIResponse` and the `POST`
  handler that derives the ticket flag and the ticket id from it.

Collaborators that are not part of the core become parameters:

- Python's salted string hash is `hash: string -> int`.
- `datetime.now().isoformat()` is `createdAt`, and `Date.now()` is `now`.
- The agent executor (the language model with its tools) is `invoke`, which gives an output
  text or raises with a message.
- `json.loads` is `parse`, which gives an object, a decode error, or another failure with a
  message.

Modules follow the source files. `Text` holds the string operations the source borrows from
Python and JavaScript: `in`, `lower`/`toLowerCase`, `find`/`rfind`, `split()`, decimal
formatting and UTF-16 length. `TicketIds` and `Tickets` hold what all handlers share.
`BusinessTools`, `Tools`, `SupportAgent` and `ChatRoute` follow `business_tools.py`,
`tools.py`, `support_agent.py` and `route.ts`.

## Model

| member | source | states |
|---|---|---|
| TicketIds.NormalizeId | backend/src/agents/business_tools.py:37 | a falsy requester id (None or "") becomes "unknown"; any other id is kept; the result is never empty |
| TicketIds.NormalizeIdIdempotent | backend/src/agents/support_agent.py:23 | normalising an already normalised id changes nothing, so the second normalisation when invoking the executor is harmless |
| TicketIds.TicketNumber | backend/src/agents/business_tools.py:38 | `abs(hash(key)) % 10000` lies in 0..9999 for every hash value, negative ones included |
| TicketIds.Pad4 | backend/src/agents/business_tools.py:38 | the `04d` format of a number below 10000 is exactly four decimal digits |
| TicketIds.Pad4Value | backend/src/agents/business_tools.py:38 | the four digits read back as the number they format |
| TicketIds.FormatTicketId | backend/src/agents/business_tools.py:38 | `PREFIX-NNNN` is five characters longer than the prefix |
| TicketIds.SplitTicketId | backend/src/agents/business_tools.py:38 | reading an id back as prefix plus trailing `-dddd` yields a number below 10000 |
| TicketIds.SplitFormat | backend/src/agents/business_tools.py:38 | formatting then reading back returns the prefix and the number (round trip) |
| TicketIds.FormatInjective | backend/src/agents/business_tools.py:38 | distinct (prefix, number) pairs give distinct ids |
| TicketIds.MakeTicketId | backend/src/agents/business_tools.py:38 | the id a handler derives reads back as its prefix and `abs(hash(key)) % 10000` |
| Tickets.PriorityNamesAgree | backend/src/agents/business_tools.py:617-647 | the upper-case priority in the staff message lower-cases to the stored priority; distinct priorities have distinct names |
| Tickets.IssuedPrefixesSeparate | backend/src/agents/business_tools.py:38-614 | two issued tickets with different prefixes never share an id, whatever the two hashes and creation times |
| Tickets.Respond | backend/src/agents/business_tools.py:53-60 | the result reports success, carries the ticket, and its message quotes `#<ticket id>` |
| Tickets.InferPriority | backend/src/agents/tools.py:48-52 | with an ordered keyword rule table, the first firing rule decides the priority; when no rule fires, the fallback does |
| BusinessTools.RequestRefund | backend/src/agents/business_tools.py:16-60 | issued REFUND ticket keyed on reason + id; high priority, "24 часа", assigned to the operations and service director; type "refund", category "Возврат средств" |
| BusinessTools.RefundRecordsReason | backend/src/agents/business_tools.py:45 | the refund description contains the reason |
| BusinessTools.RequestFreeze | backend/src/agents/business_tools.py:68-123 | issued FREEZE ticket keyed on the start date + id; medium, "24 часа"; the freeze window holds the two input dates; no assignee; type "freeze", category "Заморозка обучения" |
| BusinessTools.FreezeDescribesWindow | backend/src/agents/business_tools.py:99 | the freeze description contains both dates and the reason |
| BusinessTools.RequestUnfreeze | backend/src/agents/business_tools.py:131-188 | issued UNFREEZE ticket keyed on the date + id; medium, "24 часа"; stores the date, and the description contains it; no assignee; type "unfreeze", category "Разморозка обучения" |
| BusinessTools.UseBonus | backend/src/agents/business_tools.py:196-250 | issued BONUS ticket keyed on the bonus type + id; low, "24 часа"; stores the bonus type; no assignee; type "bonus", category "Использование бонусов" |
| BusinessTools.BonusDescribesRequest | backend/src/agents/business_tools.py:227 | the bonus description contains the bonus type and the details |
| BusinessTools.ChangeGroupOrTeacher | backend/src/agents/business_tools.py:258-318 | issued CHANGE ticket keyed on the reason + id; medium, "48 часов"; stores reason and preferences, and the description quotes both; assigned to the operations director; type "group_change", category "Смена группы/учителя" |
| BusinessTools.TechIssuePlatform | backend/src/agents/business_tools.py:326-386 | issued TECH ticket keyed on the description + id; priority from the platform rule; "4 часа" iff high, else "12 часов"; the description quotes the issue type and the description; assigned to the curator; type "technical_platform", category "Технические проблемы" |
| BusinessTools.PlatformPriorityRule | backend/src/agents/business_tools.py:354 | high iff the lower-cased description contains "не могу войти" or "доступ"; never low; independent of letter case |
| BusinessTools.RequestAttendanceCertificate | backend/src/agents/business_tools.py:394-449 | issued CERT ticket keyed on the purpose + id; medium, "3 рабочих дня"; assigned to the accountant; the description contains the purpose; type "certificate", category "Справка о присутствии" |
| BusinessTools.ExtendOrPurchaseCourse | backend/src/agents/business_tools.py:457-517 | issued EXTEND ticket keyed on the details + id; medium, "24 часа"; the same assignee appears in `assigned_to`, in the first of four actions and in the message; the description quotes the request type and the details; type "extension", category "Продление/Докупка курсов" |
| BusinessTools.ExtensionAssigneeRule | backend/src/agents/business_tools.py:483 | the sales lead is assigned iff the request type is exactly "допродажа"; otherwise the accountant |
| BusinessTools.PartnerProgramRequest | backend/src/agents/business_tools.py:525-586 | issued PARTNER ticket keyed on the invitee name + id; low, "48 часов"; stores the invitee; the description contains the name; no assignee; type "partner_program", category "Партнерская программа" |
| BusinessTools.StaffIssue | backend/src/agents/business_tools.py:594-652 | issued STAFF ticket stored under `staff_id`; priority from the staff rule; "4 часа" iff high, else "24 часа"; the message shows the upper-case priority; type "staff_issue", category "Проблемы сотрудников" |
| BusinessTools.StaffPriorityRule | backend/src/agents/business_tools.py:617-623 | high iff an urgency term occurs; low iff none does and a question term does; medium iff neither |
| Tools.TechnicalPriorityRule | backend/src/agents/tools.py:48-52 | high iff an urgency term occurs (it wins over question terms); low iff none does and a question term does; medium iff neither |
| Tools.SubmitTechnicalIssue | backend/src/agents/tools.py:14-71 | issued TECH ticket keyed on the description + id; keyword priority; "4 часа" iff high, else "24 часа"; the message embeds the SLA, the description and the priority |
| Tools.RequestDocument | backend/src/agents/tools.py:74-120 | issued DOC ticket keyed on the document type + id; low, "3 рабочих дня"; the description contains the type and the message quotes it |
| Tools.ContactTeacher | backend/src/agents/tools.py:121-170 | issued MSG ticket keyed on the message + id; medium, "1-2 рабочих дня"; the description names teacher, subject and message; the message names teacher and subject |
| Tools.TeacherTicketCarriesMessage | backend/src/agents/tools.py:160 | the teacher ticket's description contains the whole message |
| Tools.LookupIn | backend/src/agents/tools.py:176-181 | a found tool is in the list under the requested name; finding nothing means no listed tool has the name |
| Tools.LookupTool | backend/src/agents/tools.py:176-181 | lookup in `TOOLS` returns only a tool registered under that name |
| Tools.ToolNamesDistinct | backend/src/agents/tools.py:176-181 | no two tools share a registered name |
| Tools.AllToolsComplete | backend/src/agents/tools.py:176-181 | `TOOLS` has 13 entries, every handler among them, none twice |
| Tools.LookupByName | backend/src/agents/tools.py:176-181 | every tool is found under its own name; a name no tool has finds nothing |
| Tools.SharedPrefixIsTech | backend/src/agents/tools.py:45 | the only prefix two tools share is TECH, and only the general and the platform technical handlers share it |
| Tools.TechIdsCollide | backend/src/agents/tools.py:45 | the two technical handlers give the same id for the same description and requester, so a TECH id does not identify its handler; only the type ("technical" against "technical_platform") and the category tell the two tickets apart |
| SupportAgent.ConvertHistory | backend/src/agents/support_agent.py:169-174 | the converted history is never longer than the input |
| SupportAgent.ConvertHistoryConcat | backend/src/agents/support_agent.py:169-174 | conversion distributes over concatenation, so order is kept |
| SupportAgent.ConvertHistoryKnownRoles | backend/src/agents/support_agent.py:169-174 | when every role is "user" or "assistant", conversion goes entry by entry: same length, same contents, a human message exactly at each "user" entry |
| SupportAgent.ConvertHistoryUnknownRoles | backend/src/agents/support_agent.py:169-174 | a history with no "user" or "assistant" entry converts to no messages |
| SupportAgent.DropUnknownRole | backend/src/agents/support_agent.py:169-174 | an entry with any other role is dropped wherever it stands: removing it leaves the conversion unchanged |
| SupportAgent.Candidate | backend/src/agents/support_agent.py:194-197 | when it exists, the parse candidate starts with '{' and ends with '}' |
| SupportAgent.CandidateSpan | backend/src/agents/support_agent.py:194-197 | the candidate exists iff some '}' follows a '{'; it runs from the first '{' to the last '}' |
| SupportAgent.ExtractResult | backend/src/agents/support_agent.py:187-218 | a non-null ticket is only possible when the output contains '{', "ticket" and a candidate |
| SupportAgent.ExtractWithoutMarkers | backend/src/agents/support_agent.py:192 | without '{' or without "ticket", the result is the output unchanged with no ticket |
| SupportAgent.ExtractWithoutCandidate | backend/src/agents/support_agent.py:196 | when no '}' follows a '{', nothing is parsed and the output is returned unchanged |
| SupportAgent.ExtractTicket | backend/src/agents/support_agent.py:198-202 | an object with key "ticket" gives that ticket, and its "message" as the reply when present, else the whole output |
| SupportAgent.ExtractTicketOrigin | backend/src/agents/support_agent.py:200-202 | any non-null ticket is the "ticket" value of the parsed candidate |
| SupportAgent.ExtractNoTicketKey | backend/src/agents/support_agent.py:200-205 | a decode error, or an object without "ticket", leaves the output as the reply with no ticket |
| SupportAgent.ExtractApology | backend/src/agents/support_agent.py:214-218 | any other parse failure gives the apology with its message and no ticket |
| SupportAgent.ChatOutcome | backend/src/agents/support_agent.py:176-218 | an executor that raises gives the apology with its message and no ticket; an output goes through the extraction rule |
| SupportAgent.StreamChunks | backend/src/agents/support_agent.py:237-239 | one chunk per word |
| SupportAgent.ConcatStreamChunks | backend/src/agents/support_agent.py:237-239 | the chunks concatenate to the words joined by single spaces |
| SupportAgent.StreamResplits | backend/src/agents/support_agent.py:237-239 | splitting the concatenated stream gives back the words of the reply |
| SupportAgent.ChunkWords | backend/src/agents/support_agent.py:238-239 | the loop yields exactly the chunk sequence: word i plus a space unless it is the last |
| SupportAgent.StudentSupportAgent.constructor | backend/src/agents/support_agent.py:21-23 | the stored id is the normalised requester id, and normalising it again changes nothing |
| SupportAgent.StudentSupportAgent.Create | backend/src/agents/support_agent.py:26-28 | a missing or empty API key gives the configuration error; otherwise a fresh agent with the normalised id |
| SupportAgent.StudentSupportAgent.Chat | backend/src/agents/support_agent.py:154-218 | a missing history is empty; the history loop gives the converted history; the executor receives the input, those messages and the normalised id; the result is that call's outcome |
| SupportAgent.StudentSupportAgent.ChatStream | backend/src/agents/support_agent.py:220-239 | a stream exists iff the reply is a string; it is the reply's word chunks, concatenating to the words joined by spaces, and it re-splits into the same words |
| Text.LowerChar | backend/src/agents/tools.py:49 | the result is never an upper-case letter of the covered ranges; other characters are unchanged; ASCII, Latin-1 and U+0410–U+042F move up by 32, U+0400–U+040F by 80 |
| Text.Lower | backend/src/agents/tools.py:49 | lower-casing keeps the length and maps each character by the simple case mapping |
| Text.LowerIdempotent | frontend/app/api/chat/route.ts:12 | lower-casing twice is lower-casing once |
| Text.LowerPreservesContains | backend/src/agents/tools.py:49 | an occurrence in the text survives lower-casing |
| Text.FindChar | backend/src/agents/support_agent.py:194 | `find`: -1 iff the character is absent, else the index of its first occurrence |
| Text.RFindChar | backend/src/agents/support_agent.py:195 | `rfind`: -1 iff the character is absent, else the index of its last occurrence |
| Text.WordsAreWords | backend/src/agents/support_agent.py:237 | every piece `split()` returns is non-empty and free of whitespace |
| Text.WordsEmpty | backend/src/agents/support_agent.py:237 | `split()` gives no words iff the text is all whitespace, so an empty reply yields no chunks |
| Text.WordsOfJoin | backend/src/agents/support_agent.py:237-239 | splitting the single-space join of words gives the words back |
| Text.NatToStringValue | frontend/app/api/chat/route.ts:90 | the decimal text of a number reads back as that number |
| Text.Utf16Length | frontend/app/api/chat/route.ts:64 | `.length` counts between one and two code units per character |
| ChatRoute.GetAIResponse | frontend/app/api/chat/route.ts:11-77 | the reply is one of the seven canned texts; a reply without a ticket is the login, contact, schedule or ask-for-details text |
| ChatRoute.PaymentAlwaysTicket | frontend/app/api/chat/route.ts:55-61 | "Payment Issues" always gives the payment reply with a ticket |
| ChatRoute.TechnicalRules | frontend/app/api/chat/route.ts:15-30 | a technical login/password message creates a ticket iff it mentions "reset" or "doesn't work", ahead of the slow/loading rule; otherwise slow/loading always creates one |
| ChatRoute.AccountAndCourseRules | frontend/app/api/chat/route.ts:33-52 | account email/contact creates a ticket iff "can't" or "unable"; course schedule/timetable iff "change" or "modify" |
| ChatRoute.DefaultRule | frontend/app/api/chat/route.ts:64-76 | what no category rule answers gets a ticket iff the lower-cased length exceeds 100 or "help"/"urgent" occurs; those two replies come only from this rule |
| ChatRoute.UnknownCategory | frontend/app/api/chat/route.ts:15-55 | categories are compared exactly: any other category, a differently cased one included, behaves as no category |
| ChatRoute.CaseInsensitive | frontend/app/api/chat/route.ts:12 | keyword matching ignores the case of the message |
| ChatRoute.TicketIdAt | frontend/app/api/chat/route.ts:90 | the ticket id is "TKT-" followed by the decimal digits of the request time |
| ChatRoute.Post | frontend/app/api/chat/route.ts:79-112 | an unparseable body or non-string message gives the 500 error; otherwise the rule's reply, `ticketCreated` equal to its flag, and a ticket id iff a ticket is created |
| ChatRoute.PaymentPostCreatesTicket | frontend/app/api/chat/route.ts:55-107 | a payment request always answers with a ticket whose id encodes the request time |

## Left out

- The LangChain agent executor, the Gemini model, the system prompt and `max_iterations`: a foreign, non-deterministic call, modelled as the `invoke` parameter. Which tool fires, and with which arguments, is its choice.
- Python's salted `hash` is an arbitrary function. Only the bound, the prefix and determinism for equal inputs are claimed.
- `datetime.now()` and `Date.now()` are parameters.
- JSON serialisation (`json.dumps`, `ensure_ascii`) is not modelled: handlers return records. `json.loads` is a parameter, and JSON numbers are integers only (floats are not modelled).
- Logging and `console.log`/`console.error`: side effects with no bearing on results.
- Text.LowerChar: the same coverage as Text.Lower below; unmapped characters come back unchanged.
- Text.Lower maps only ASCII, Latin-1 and basic Cyrillic (U+0400–U+042F). Other scripts are unchanged, and length-changing mappings (such as U+0130) are not modelled.
- `str(x)` coercion of non-string tool arguments: arguments are strings, and requester ids are optional strings.
- SupportAgent.StudentSupportAgent.Chat: a history entry without a `role` or `content` key would raise outside the try block. History entries always have both here.
- SupportAgent.StudentSupportAgent.ChatStream: the async generator is a method that returns the whole chunk sequence. A reply that is not a string, where `split` would raise, gives no stream.
- Routing a tool call to its handler with that handler's arguments belongs to the agent framework. Only the tool list and lookup by name are modelled.
- ChatRoute.Post: a request body that is not valid JSON and a missing or non-string `message` are the same failure. Other non-string field types are not modelled. `userId` is only logged.
- Transport and glue: FastAPI routes, CORS, pydantic schemas, the authentication service and the frontend pages are not part of this model.
