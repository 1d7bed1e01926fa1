# Portfolio chat and contact endpoints, in Dafny

This project models the two server-side API routes of a personal portfolio
site built on Next.js.

- **The chat endpoint** (`POST /api/chat`). The first tier is a remote
  text-generation service (Anthropic), tried only when its API key is set and
  is not the sample placeholder. The second tier is a second service (OpenAI),
  under the same condition. When neither tier answers, a keyword decision table
  (`getSmartResponse`) replies. That table lowers the message, tests ten groups
  of trigger words in a fixed order, and returns the canned reply of the first
  group with a hit, or a default reply. Any exception ends in a fixed reply. The
  status is 200 on every path.
- **The contact endpoint** (`POST /api/contact`). It checks in this order:
  - name, email and message must be present, else 400;
  - the email must end, in any letter case, with `@gmail.com`, `@outlook.com`,
    `@hotmail.com` or `@live.com`, else 400.
  
  When no mail credential is configured, it then replies with success and sends
  nothing. Otherwise it hands exactly one mail to the mail service, and the reply
  follows that service's answer. Any exception gives 500.

Modules:

- `Js` (`js.dfy`) holds the untyped inputs:
  - a JSON body field is absent, a string, or another value with its own
    JavaScript truthiness and its string rendering;
  - an environment variable is unset or set.
- `Text` (`text.dfy`) holds the string operations the routes use: `toLowerCase`
  (ASCII letters), `includes`, `endsWith` and the line-feed-to-`<br>` rewrite.
  Each comes with the facts proved about it.
- `Chat` (`chat.dfy`) holds the keyword table as data:
  - ten rules in source order, each a list of triggers and a topic;
  - a first-match function over those rules;
  - the tiered handler as a function of the request, the two keys and the
    outcome of each remote call. The reply records which tiers were invoked.
- `Contact` (`contact.dfy`) holds the validation chain. It is a function of the
  request, the two environment variables and the mail service's outcome. The
  response records the status, which reply was given, and the mails handed to
  the service.

Both route files are pure request-to-response logic with no state of their own,
so the whole model is made of functions and lemmas.

Modelling choices:

- A JSON body that parses but is not an object (a number, a string) is passed
  to the contact model as a `Form` whose fields are all `Absent`, because in the
  source destructuring then yields `undefined` fields.
- A body of `null` is `Unparseable`, because destructuring it throws.
- The chat message is tried on the remote tiers whatever its type. The keyword
  table is reached only with a string; any other value makes `toLowerCase`
  throw, which gives the outer fixed reply. The model follows the code here.
- Both contact paths that use a non-string message end in 500, with no mail
  sent:
  - without a credential, because `substring` is called on it for the log line;
  - with a credential, because `replace` is called on it while the mail is built.
- A truthy email that is not a string throws at `toLowerCase`, so it gives 500,
  not the domain error.
- When a credential is usable, building the mail renders the name and a
  truthy phone into text. A JSON object whose own `toString` key is not a
  function cannot be rendered, so that path throws and gives 500 before
  anything is sent. Without a credential nothing is rendered: the log line
  passes the fields as they are.

## Model

| member | source | states |
|---|---|---|
| Text.Lower | src/app/api/chat/route.ts:104 | lowering keeps the length and lowers each ASCII capital in place, leaving every other character alone |
| Text.LowerIdempotent | src/app/api/chat/route.ts:104 | lowering an already-lowered message changes nothing |
| Text.LowerConcat | src/app/api/contact/route.ts:16 | lowering distributes over concatenation, so the lowered end of an address is the lowered address's end |
| Text.LowerFixesNoCapitals | src/app/api/chat/route.ts:104 | lowering leaves a text unchanged iff it has no ASCII capital |
| Text.Includes | src/app/api/chat/route.ts:107 | `includes(t)`: `t` occurs at some position of the text; an occurrence needs `t` no longer than the text |
| Text.IncludesEmpty | src/app/api/chat/route.ts:107 | the empty string is included in every text |
| Text.EndsWithIff | src/app/api/contact/route.ts:18 | `endsWith(d)` holds exactly when the text is some prefix followed by `d` |
| Text.EndsWithIncludes | src/app/api/contact/route.ts:18 | a text that ends with a suffix includes it, and every text ends with itself |
| Text.ReplaceNewlines | src/app/api/contact/route.ts:59 | the mail body contains no line feed and is never shorter than the message |
| Text.ReplaceNewlinesConcat | src/app/api/contact/route.ts:59 | the global `\n` to `<br>` rewrite distributes over concatenation |
| Text.ReplaceNewlinesLength | src/app/api/contact/route.ts:59 | the body is the message's length plus three per line feed |
| Text.ReplaceNewlinesNoop | src/app/api/contact/route.ts:59 | a message without line feeds is put in the mail unchanged |
| Js.Truthy | src/app/api/contact/route.ts:8 | an absent field and the empty string are falsy, a non-empty string is truthy |
| Js.Configured | src/app/api/chat/route.ts:165-198 | a key is usable iff it is set, non-empty and not the sample placeholder (also the mail key check at contact/route.ts:28) |
| Js.Shown | src/app/api/contact/route.ts:52-57 | a truthy string field is rendered as itself and is non-empty |
| Chat.CannedTextInjective | src/app/api/chat/route.ts:106-157 | the eleven replies are pairwise different, so the reply identifies the branch taken |
| Chat.CannedText | src/app/api/chat/route.ts:108-157 | each of the eleven replies is a non-empty text |
| Chat.RulesTable | src/app/api/chat/route.ts:106-154 | the table has ten rules whose topics come in source order; no trigger is empty and none has a capital, so each can occur in a lowered message and none fires on every message |
| Chat.RuleTopicsDistinct | src/app/api/chat/route.ts:106-154 | the ten trigger groups lead to ten different replies, none of them the default |
| Chat.FirstMatch | src/app/api/chat/route.ts:103-158 | the result is the topic of the first rule with a trigger in the text, and no earlier rule has one; or it is the default, and no rule has one |
| Chat.SmartResponse | src/app/api/chat/route.ts:103-158 | every message gets a non-empty canned reply |
| Chat.SmartResponsePrecedence | src/app/api/chat/route.ts:106-154 | group k's reply is given iff one of its triggers occurs in the lowered message and no trigger of an earlier group does |
| Chat.SmartResponseDefault | src/app/api/chat/route.ts:156-157 | the default reply is given iff no trigger of any group occurs in the lowered message |
| Chat.SmartResponseTotal | src/app/api/chat/route.ts:103-158 | the reply is the default or the reply of one of the ten groups |
| Chat.SmartResponseCaseInsensitive | src/app/api/chat/route.ts:104 | two messages that agree after lowering get the same reply, and so does the lowered message itself |
| Chat.KafkaAnyCase | src/app/api/chat/route.ts:104-113 | "KAFKA", "Kafka" and "kafka" all get the data engineering reply |
| Chat.StrengthsBeforeExperience | src/app/api/chat/route.ts:106-134 | every message whose lowered form contains both "strength" and "experience" fires the experience group but gets the strengths reply |
| Chat.StrengthsQuestionGetsStrengths | src/app/api/chat/route.ts:106-134 | "what are your strengths and experience?", in any letter case, fires the experience group but gets the strengths reply |
| Chat.FullStackBeforeSkills | src/app/api/chat/route.ts:116-139 | "full stack" contains the skills trigger "stack" but gets the full stack reply |
| Chat.ProjectsBeforeAbout | src/app/api/chat/route.ts:126-154 | "tell me about your projects" fires the about group but gets the projects reply |
| Chat.NoTriggerGetsDefault | src/app/api/chat/route.ts:103-158 | any message that lowers to "asdkjfh qweoiu", which contains no trigger, gets the default reply |
| Chat.ChatPost | src/app/api/chat/route.ts:160-239 | the status is always 200; the first tier is invoked iff the body parsed and its key is set, non-empty and not the placeholder; the second iff the body parsed, its key is usable and the first tier did not answer; at most these two, in this order |
| Chat.AnthropicAnswerIsFinal | src/app/api/chat/route.ts:165-188 | a configured first tier that answers gives the reply, and the second tier is never invoked |
| Chat.OpenAIAnswersAfterAnthropic | src/app/api/chat/route.ts:197-221 | when the first tier is skipped or fails, a configured second tier that answers gives the reply |
| Chat.NoTierAnswersFallsBackToKeywords | src/app/api/chat/route.ts:229-231 | when every tier is skipped or fails, a string message gets the keyword table's reply |
| Chat.NonStringMessageGetsFixedReply | src/app/api/chat/route.ts:229-238 | when every tier is skipped or fails, a message that is not a string gets the outer handler's fixed reply |
| Chat.UnparseableGetsFixedReply | src/app/api/chat/route.ts:161-162 | an unreadable body gets the fixed reply with status 200 and invokes no tier |
| Chat.ChatPostAlwaysAnswers | src/app/api/chat/route.ts:160-239 | the reply is a tier's text, the fixed reply, or one of the canned replies |
| Contact.PhoneText | src/app/api/contact/route.ts:57 | a truthy phone is shown as given; otherwise the mail says "Not provided" |
| Contact.Sender | src/app/api/contact/route.ts:50 | the sender is never empty: the configured address when it is a non-empty string, else the default |
| Contact.MailFor | src/app/api/contact/route.ts:49-63 | the mail goes to the owner from the chosen sender; the subject is exactly the fixed prefix followed by the name; the HTML is exactly the fixed head (with name, email and phone line), then the rewritten message, then the fixed tail |
| Contact.AllowedEmail | src/app/api/contact/route.ts:16-18 | the lowered address ends with one of the four domains; an accepted address is at least as long as the shortest domain |
| Contact.ContactPost | src/app/api/contact/route.ts:3-85 | the status is 200, 400 or 500; 400 exactly when a required field is falsy or a string email has no allowed domain; 500 exactly when the body is unreadable, a present email is not a string, an accepted form has a non-string message, or a credential is usable and either the name or phone cannot be rendered or the mail service does not deliver; the generic error with nothing sent is given exactly on those four exception paths; the sent and send-failure replies each follow exactly one handed-over mail and the matching outcome; at most one mail is handed over, exactly when all checks pass, a credential is usable, the message is a string and the template renders, and it is the mail built from the form |
| Contact.MissingFieldsFirst | src/app/api/contact/route.ts:8-13 | a falsy name, email or message gives 400 and sends nothing, whatever the other inputs |
| Contact.DomainCheck | src/app/api/contact/route.ts:15-25 | with the required fields present, the domain error is given iff the address does not end with an allowed domain |
| Contact.AllowedEmailCaseInsensitive | src/app/api/contact/route.ts:16-18 | the domain check gives the same answer for an address and its lowered form |
| Contact.AllowedEmailIgnoresPrefix | src/app/api/contact/route.ts:16-18 | prefixing an accepted address with anything keeps it accepted: only the end is checked |
| Contact.AllowedEmailIff | src/app/api/contact/route.ts:16-18 | an address is accepted iff its lowered form is some text followed by one of the four domains |
| Contact.UpperCaseGmailAccepted | src/app/api/contact/route.ts:16-18 | "USER@GMAIL.COM" is accepted |
| Contact.CompanyAddressRefused | src/app/api/contact/route.ts:16-25 | "user@company.com" is refused |
| Contact.TrailingTextRefused | src/app/api/contact/route.ts:16-25 | "x@gmail.com.evil" is refused: the domain must end the address |
| Contact.BareDomainAccepted | src/app/api/contact/route.ts:16-25 | "@gmail.com", with nothing before the domain, is accepted |
| Contact.RenderablePhoneIsIrrelevant | src/app/api/contact/route.ts:8-57 | two phone values that the template can render (falsy ones are never rendered) give the same status, reply and number of mails sent |
| Contact.UnrenderableFieldThrows | src/app/api/contact/route.ts:49-63 | a name or truthy phone that string conversion cannot render gives the generic 500 error with nothing sent when a credential is usable, and the normal saved reply when none is |
| Contact.NotConfiguredNeverSends | src/app/api/contact/route.ts:27-42 | without a usable credential no mail is handed over, and a valid submission still gets the success reply |
| Contact.SendOutcomeDecides | src/app/api/contact/route.ts:44-84 | a valid submission whose name and phone render, with a usable credential, is handed over exactly once; the status is 200 iff the service delivers; a returned error gives the send-failure reply and a thrown one the generic error reply |
| Contact.SentMailCarriesMessage | src/app/api/contact/route.ts:49-63 | a mail handed over goes to the owner's address, its HTML contains the message with line feeds rewritten, and its subject contains the name |

## Left out

- The remote calls. The HTTP requests to both text-generation services and to the mail service are not modelled. Their outcomes are inputs, together with the request payloads (model names, token limits, temperature, headers, the system prompt).
- Chat.ChatPost: a service that answers with status ok but whose payload has a first element without text makes the source reply with no text at all. The model treats every ok answer as carrying text, and every other outcome (non-ok status, thrown error, missing first element) as a failure.
- Chat.CannedText: the wording of the eleven canned replies and of the fixed error reply is product content. Each is a distinct non-empty stand-in; only which reply is given is modelled.
- Text.Lower: JavaScript `toLowerCase` lowers all of Unicode; the model lowers ASCII letters only, so the two agree on ASCII text.
- Contact.ContactPost: the JSON reply bodies (their success flags, texts and the mail service's message id) are represented only by the reply kind.
- Contact.ContactPost: a failure to load the mail library before the send is not modelled. The send outcome covers only the call itself.
- Js.Shown: the text JavaScript produces for a non-string value inside a template string, and whether that conversion throws (an object whose own `toString` key is not a function), are inputs of the model (`Other.shown`, `Other.renders`), not computed.
- Logging, timestamps and the `substring(0, 100)` of the logged message. Nothing they compute reaches the reply, except that `substring` throws on a non-string message, which is modelled.
- JSON parsing of the request body: the parsed fields are inputs.
- The page, the 3D scene components, the layout and the build configuration are not part of this model.
