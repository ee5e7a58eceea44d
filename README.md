# AI SaaS request gating, in Dafny

This project models the decision layer of the backend of a content-generation
web application, together with one client-side check of its front end.

The backend has ten request handlers:

- article
- blog title
- image
- background removal
- object removal
- resume review
- summarise
- translate
- social caption
- email

Every handler follows the same fixed sequence:

1. It checks the caller id and a few body fields.
2. It gates on the caller's plan. The article and blog-title handlers gate on the free-tier counter instead.
3. It makes one call to an outside generation service.
4. It appends one row to the `creations` table.
5. The two quota-gated handlers also write `free_usage + 1` back to the caller's metadata.

The front end's object-removal form refuses an object name that contains a space. It does this before anything is posted, and the server never repeats the check.

Modules:

- `Js` (`js_values.dfy`): the JavaScript value rules the code relies on:
  - `undefined` versus `""` (`Field`, `Falsy`);
  - template interpolation (`Text`);
  - `a || b` (`Or`);
  - `toLowerCase` (`Lower`);
  - a call that returns or throws (`Outcome`).
- `AiControllers` (`ai_controllers.dfy`):
  - the class `Gateway` holds the state the handlers change: the `creations` rows and the map from user id to `free_usage`;
  - each handler is a method of the class, and each method returns the reply and the list of generation requests it issued (model, image service, PDF parsing); the `creations` insert, the metadata update and the image upload after the image-service call are state changes or outcomes, not entries of that list;
  - what the outside services do is a `Services` argument, in which each of PDF parsing, generation, insert and metadata update either returns or throws;
  - the pure parts are functions: the ordered check chains (`FirstFailing`), the free-tier accounting (`QuotaAccounting`), the summary length budget and the prompt templates.
- `RemoveObject` (`remove_object.dfy`):
  - `split(" ")` and its inverse `Join`;
  - the one-name check (`NamesOneObject`);
  - the form component as the class `Form`, whose `OnSubmit` is the submit handler.

## Model

| member | source | states |
|---|---|---|
| Js.Lower | Backend/Controllers/aiControllers.js:334-337 | `toLowerCase` keeps the length and maps each character through the ASCII lower-casing, position by position |
| AiControllers.FirstFailing | Backend/Controllers/aiControllers.js:295-314 | a chain of early returns answers `None` exactly when every check passes; otherwise it answers the message of a check that fails |
| AiControllers.FirstFailingAt | Backend/Controllers/aiControllers.js:555-595 | when every check before position k passes and check k fails, check k's message decides, whatever the later checks say; when all pass, nothing is refused |
| AiControllers.QuotaAccounting | Backend/Controllers/aiControllers.js:23-51 | an exhausted free caller gets nothing written and no success; a row exists exactly when the gate is open and generation and insert both returned; the counter is written only after the insert, only for a non-premium caller, only if the update returned, and only as `free_usage + 1`, which never exceeds 10; success implies the row and, for a free caller, the counter write |
| AiControllers.FreeTierBound | Backend/Controllers/aiControllers.js:23-50 | in any sequence of article or blog-title requests, each gated on the counter the earlier ones left, a non-premium caller gets at most `10 - free_usage` successful replies, whatever the services do |
| AiControllers.AsWrittenSummaryBudget | Backend/Controllers/aiControllers.js:333-337 | as written, the budget step throws exactly when the lower-cased type is short, medium, long or bullets; otherwise it leaves the budget at 200 |
| AiControllers.AsWrittenShortThrows | Backend/Controllers/aiControllers.js:333-337 | for type "Short", the handler as written throws the undeclared-variable error, where the intended budget is 80 |
| AiControllers.SummaryBudget | Backend/Controllers/aiControllers.js:333-337 | the intended budget agrees with the as-written one wherever that returns; it is between 1 and 1300; short, medium and long get a bound other than the default 200 |
| AiControllers.SummaryBudgetsDistinct | Backend/Controllers/aiControllers.js:333-337 | the four recognised types, in any letter case, get pairwise different bounds |
| AiControllers.Gateway.GenerateArticle | Backend/Controllers/aiControllers.js:16-65 | an exhausted free caller gets "Limit reached" with no outside call; otherwise one chat call carries the caller's `length`; rows, counter and success follow `QuotaAccounting`; the reply names the first step that threw |
| AiControllers.Gateway.GenerateBlogTitle | Backend/Controllers/aiControllers.js:67-115 | the same as the article handler, with a fixed bound of 100 tokens and the tag `blog-title` |
| AiControllers.Gateway.GenerateImage | Backend/Controllers/aiControllers.js:117-167 | a non-premium caller is refused with no call and no row; otherwise one image call is made; a row tagged `image` with `publish` coerced to a boolean is added exactly when generation and insert returned; the counter is never touched |
| AiControllers.Gateway.RemoveImageBackground | Backend/Controllers/aiControllers.js:169-204 | the plan gate comes before the file; a missing file throws before any call; the row has the fixed prompt and the tag `image`; the counter is never touched |
| AiControllers.Gateway.RemoveImageObject | Backend/Controllers/aiControllers.js:205-239 | like background removal; the edit effect is `gen_remove:` followed by the object and the prompt is `Removed <object> from image`, with no word-count check on the server |
| AiControllers.Gateway.ResumeReview | Backend/Controllers/aiControllers.js:241-288 | the order is plan, missing file, then size; a file over 5 MiB is refused before any parse, and exactly 5 MiB passes; a failed parse means no model call; a thrown error comes back in `content`; a row is added only when parse, model and insert all returned |
| AiControllers.Gateway.SummarizeText | Backend/Controllers/aiControllers.js:290-366 | the first failing check among userId, input and plan decides the refusal, with no call and no row; a missing type answers "try again"; otherwise one call is made with the corrected budget `SummaryBudget` (see Findings), and the row and success follow the call and the insert |
| AiControllers.Gateway.TranslateText | Backend/Controllers/aiControllers.js:368-458 | the first failing check among userId, input, target language, tone and plan decides the refusal; otherwise one 500-token call is made, and a row tagged `language-translation` is added exactly on success |
| AiControllers.Gateway.GenerateSocialCaption | Backend/Controllers/aiControllers.js:460-547 | the first failing check among userId, topic, platform, tone and plan decides the refusal; otherwise one 300-token call is made, and a row tagged `social caption` is added exactly on success |
| AiControllers.Gateway.GenerateEmail | Backend/Controllers/aiControllers.js:549-648 | the first failing check among userId, subject, details, tone, email type and plan decides the refusal; otherwise one 300-token call is made; a row tagged `email-writer` is added exactly on success, and the reply is "try again later" otherwise |
| RemoveObject.Split | Frontend/src/pages/RemoveObject.jsx:22 | `split` on a one-character separator always yields at least one piece |
| RemoveObject.SplitOnePiece | Frontend/src/pages/RemoveObject.jsx:22 | `split(" ")` yields exactly one piece if and only if the text contains no space |
| RemoveObject.SplitPiecesClean | Frontend/src/pages/RemoveObject.jsx:22 | no piece of the split contains the separator |
| RemoveObject.JoinSplit | Frontend/src/pages/RemoveObject.jsx:22 | joining the pieces with the separator gives back the original text |
| RemoveObject.NamesOneObject | Frontend/src/pages/RemoveObject.jsx:22-24 | the check `split(" ").length > 1` lets a name through if and only if it contains no space |
| RemoveObject.StraySpacesRefused | Frontend/src/pages/RemoveObject.jsx:22 | a leading, trailing or doubled space is refused like two words; "red car" is refused |
| RemoveObject.Form.OnSubmit | Frontend/src/pages/RemoveObject.jsx:17-49 | a refused name posts nothing, shows the notice, leaves `content` as it was and leaves `loading` on; otherwise one post is sent and `loading` ends off; a success reply sets `content` to the reply's content, while a refusal or a thrown error leaves `content` unchanged and shows an error toast |

## Left out

- Outside services:
  - the language model, image synthesis, image editing and PDF text extraction are not modelled, and neither are file reading, the database and the metadata store;
  - each is a `Services` outcome that returns a value or throws an error message;
  - temperatures, file contents and upload URLs are not modelled.
- Authentication middleware:
  - `plan`, `free_usage` and `userId` are inputs to each handler;
  - `req.auth()` throwing is not modelled;
  - a missing or non-numeric `free_usage` is not modelled (it is an `int`).
- Concurrency: requests are sequential, so the check-then-increment race between parallel requests of one user is not modelled.
- AiControllers.FreeTierBound: holds for requests made one after another only. Under concurrent requests the gate can read a stale counter.
- Routing:
  - the router mounts only six handlers (article, blog title, image, background removal, object removal, resume review);
  - the other four are modelled as written, although no route reaches them;
  - server start-up and Express wiring are not part of this model.
- Body field types:
  - text fields are strings or `undefined`;
  - a number, array or object sent in a text field is not modelled;
  - `publish` and `length` are JSON values: undefined, null, booleans, finite numbers, strings, arrays and objects;
  - `NaN` and the infinities are not among the numbers, so `publish: NaN` (falsy) cannot be expressed.
- Js.Lower: lower-cases ASCII letters only. This is exact for what the code does with the result, which is to compare it with four ASCII keywords.
- A `null` or missing text in a model reply is not modelled: the reply is always a string.
- Error wording: a missing upload reports the error message the V8 engine gives for reading `path` or `size` of `undefined`.
- A metadata update that throws counts as no write.
- AiControllers.Gateway.SummarizeText: uses the corrected budget `SummaryBudget`, so for the types short, medium, long and bullets (any case) it promises one model call with 80, 150, 1300 or 200 tokens and a row on success. As written, those types throw at lines 334-337 and the handler answers "try again" with no call and no row; that behaviour is stated by `AsWrittenSummaryBudget` and `AsWrittenShortThrows`, not at handler level.
- The row's creation timestamp is not modelled.
- Front end:
  - rendering, the blog-title page, the app shell, the sidebar and the layout are not part of this model;
  - `preventDefault`, the token fetch and toast display are not modelled; a toast is a value appended to a list.
- Behaviour of the code worth knowing:
  - the multi-word object check runs in the browser only, not on the server;
  - the four check-chain handlers (summarise, translate, caption, email) validate fields before the plan; the image, background and object handlers gate on the plan first;
  - only the resume handler checks the file before parsing, and it does so after the plan gate;
  - background and object removal store the same tag, `image`, not separate kinds;
  - the six mounted handlers never check `userId`;
  - as written, the four summary types throw before reaching the model: see Findings.

## Findings

| source | as written | input that shows it | evidently intended | confidence | as-written member | corrected member |
|---|---|---|---|---|---|---|
| Backend/Controllers/aiControllers.js:333-337 | the four type branches assign to `maxToken`, which is never declared, while the call passes `maxOutputTokens`. In an ES module (strict code) the assignment throws a ReferenceError, so the handler's `catch` answers "try again" and the model is never called. | a summarise request with type "Short" (likewise medium, long or bullets, in any case) from a premium caller with text | bounds of 80, 150, 1300 and 200 tokens for short, medium, long and bullets | high for the intent; that the module is strict follows from its `export` syntax; not executed | AiControllers.AsWrittenSummaryBudget, shown by AiControllers.AsWrittenShortThrows | AiControllers.SummaryBudget, with AiControllers.SummaryBudgetsDistinct; used by AiControllers.Gateway.SummarizeText |
