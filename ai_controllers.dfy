/** The request gating and usage accounting of the ten AI request handlers.

    Each handler checks a few request fields, gates on the caller's plan (or, for
    article and blog-title generation, on the free-tier counter), makes one opaque
    call to a generation service, appends one row to the `creations` table and,
    for the two quota-gated handlers, writes `free_usage + 1` back to the caller's
    metadata. The plan and the counter come from authentication middleware and are
    taken as inputs; what the outside services do is given as a `Services` value. */
module AiControllers {
  import opened Js

  // ---------------------------------------------------------------------------
  // Constants

  /** Free-tier generations allowed before "Limit reached". */
  const FreeLimit: int := 10
  /** Largest accepted resume upload, in bytes (5 MiB). */
  const MaxResumeBytes: int := 5_242_880  // 5 * 1024 * 1024

  const ChatModel := "gemini-2.0-flash"
  const GenAiModel := "gemini-2.5-flash"

  const LimitReached := "Limit reached. Upgrade to continue"
  const PremiumOnly := "This feature is only available for premium subscriptions"
  const ResumeTooLarge := "Resume file size exceeds allowed size (5MB). "
  const NotAuthorized := "not authorized login again"
  const EnterText := "please enter the text and try again"
  const NoTargetLanguage := "Target language not selected"
  const SelectTone := "Please select a tone"
  const EnterTopic := "please enter the topic and try again"
  const SelectPlatform := "Please select a platform and try again"
  const SelectToneAgain := "Please select a tone and try again"
  const EnterSubject := "please enter the subject and try again"
  const EnterDetails := "Please enter the details and try again"
  const SelectEmailType := "Please select the Email type and try again"
  const TryAgain := "try again"
  const TryAgainLater := "try again later"
  const ResumeReviewed := "We’ve reviewed your resume! Check out the feedback."

  /** What the runtime throws when the upload middleware left `req.file` unset. */
  const NoFilePath := "Cannot read properties of undefined (reading 'path')"
  const NoFileSize := "Cannot read properties of undefined (reading 'size')"
  /** What strict-mode code throws on assigning the undeclared `maxToken`. */
  const MaxTokenUndeclared := "maxToken is not defined"

  /** The `type` column of each kind of creation. */
  const ArticleTag := "article"
  const BlogTitleTag := "blog-title"
  const ImageTag := "image"
  const ResumeTag := "resume-review"
  const SummaryTag := "text-summarization"
  const TranslationTag := "language-translation"
  const CaptionTag := "social caption"
  const EmailTag := "email-writer"

  // ---------------------------------------------------------------------------
  // Data

  /** One row of the `creations` table. `publish` is `None` where the insert
      leaves the column to its default. */
  datatype Creation = Creation(userId: Field, prompt: Field, content: string, kind: string, publish: Option<bool>)

  /** The JSON body of a reply: `success`, `message` when present, and the one
      result field (`content`, `translation`, `caption` or `email`). */
  datatype Payload = Payload(key: string, value: string)
  datatype Response = Response(success: bool, message: Option<string>, payload: Option<Payload>)

  function Fail(message: string): Response {
    Response(false, Some(message), None)
  }

  function Done(message: string, key: string, value: string): Response {
    Response(true, Some(message), Some(Payload(key, value)))
  }

  /** The file the upload middleware attached to the request. */
  datatype Upload = Upload(path: string, size: int)

  /** What the outside world does during one request: the PDF text extraction,
      the generation call (language model, image synthesis or image edit), the
      `creations` insert and the metadata update. Each handler consults only the
      ones it reaches. */
  datatype Services = Services(parse: Outcome<string>, generation: Outcome<string>, insert: Outcome<()>, update: Outcome<()>)

  /** A request sent to a generation service (model, image or PDF parsing), in the
      order the handler sends them; storage writes and uploads are not listed. */
  datatype Call =
    | ChatCompletion(model: string, content: Field, maxTokens: Json)
    | GenerateContent(model: string, contents: string, maxOutputTokens: int)
    | TextToImage(prompt: Field)
    | RemoveBackground(path: string)
    | GenRemove(path: string, effect: string)
    | ParsePdf(path: string)

  // ---------------------------------------------------------------------------
  // Gates and checks

  /** `plan == "premium"`; every gate in the controllers is its negation. */
  predicate IsPremium(plan: Field) {
    plan == Some("premium")
  }

  /** The free-tier gate of the article and blog-title handlers. */
  predicate QuotaExhausted(plan: Field, freeUsage: int) {
    !IsPremium(plan) && freeUsage >= FreeLimit
  }

  /** One early-return test of a handler, or one awaited step inside its `try`:
      when it does not pass, `message` is what the caller is told. */
  datatype Check = Check(passes: bool, message: string)

  /** The message of the first check at or after `from` that does not pass, or
      `None` when all of them pass: the effect of a chain of `if (...) return`
      statements. */
  function FirstFailing(checks: seq<Check>, from: nat): (r: Option<string>)
    requires from <= |checks|
    ensures r.None? <==> forall i :: from <= i < |checks| ==> checks[i].passes
    ensures r.Some? ==> exists i :: from <= i < |checks| && !checks[i].passes && r.value == checks[i].message
    decreases |checks| - from
  {
    if from == |checks| then None
    else if !checks[from].passes then Some(checks[from].message)
    else FirstFailing(checks, from + 1)
  }

  /** When the checks from `from` up to `k` pass and the one at `k` (if any) does
      not, check `k` alone decides. */
  lemma {:induction false} FirstFailingAt(checks: seq<Check>, from: nat, k: int)
    requires from <= k <= |checks|
    requires forall j :: from <= j < k ==> checks[j].passes
    requires k < |checks| ==> !checks[k].passes
    ensures FirstFailing(checks, from) == if k < |checks| then Some(checks[k].message) else None
    decreases k - from
  {
    if from < k {
      FirstFailingAt(checks, from + 1, k);
    }
  }

  function SummarizeChecks(userId: Field, input: Field, plan: Field): seq<Check> {
    [Check(!Falsy(userId), NotAuthorized), Check(!Falsy(input), EnterText), Check(IsPremium(plan), PremiumOnly)]
  }

  function TranslateChecks(userId: Field, input: Field, targetLanguage: Field, tone: Field, plan: Field): seq<Check> {
    [Check(!Falsy(userId), NotAuthorized), Check(!Falsy(input), EnterText),
     Check(!Falsy(targetLanguage), NoTargetLanguage), Check(!Falsy(tone), SelectTone),
     Check(IsPremium(plan), PremiumOnly)]
  }

  function CaptionChecks(userId: Field, topic: Field, platform: Field, tone: Field, plan: Field): seq<Check> {
    [Check(!Falsy(userId), NotAuthorized), Check(!Falsy(topic), EnterTopic),
     Check(!Falsy(platform), SelectPlatform), Check(!Falsy(tone), SelectToneAgain),
     Check(IsPremium(plan), PremiumOnly)]
  }

  function EmailChecks(userId: Field, subject: Field, details: Field, tone: Field, emailType: Field, plan: Field): seq<Check> {
    [Check(!Falsy(userId), NotAuthorized), Check(!Falsy(subject), EnterSubject),
     Check(!Falsy(details), EnterDetails), Check(!Falsy(tone), SelectToneAgain),
     Check(!Falsy(emailType), SelectEmailType), Check(IsPremium(plan), PremiumOnly)]
  }

  // ---------------------------------------------------------------------------
  // Free-tier accounting

  /** What one article or blog-title request does to the accounting state:
      whether a row was inserted, the counter value written (if any), and
      whether the caller was told `success: true`. */
  datatype Accounting = Accounting(inserted: bool, written: Option<int>, succeeded: bool)

  function QuotaAccounting(plan: Field, freeUsage: int, env: Services): (r: Accounting)
    ensures QuotaExhausted(plan, freeUsage) ==> r == Accounting(false, None, false)
    ensures r.inserted <==> !QuotaExhausted(plan, freeUsage) && env.generation.Returned? && env.insert.Returned?
    ensures IsPremium(plan) ==> r.written.None?
    ensures r.written.Some? ==> r.inserted && r.written.value == freeUsage + 1
    ensures r.written.Some? ==> r.written.value <= FreeLimit
    ensures r.written.Some? <==> r.inserted && !IsPremium(plan) && env.update.Returned?
    ensures r.succeeded ==> r.inserted && (IsPremium(plan) || r.written.Some?)
  {
    if QuotaExhausted(plan, freeUsage) then Accounting(false, None, false)
    else if env.generation.Threw? || env.insert.Threw? then Accounting(false, None, false)
    else if IsPremium(plan) then Accounting(true, None, true)
    else if env.update.Threw? then Accounting(true, None, false)
    else Accounting(true, Some(freeUsage + 1), true)
  }

  /** The successful replies a non-premium caller gets from a run of quota-gated
      requests made one after another, each gated on the counter the previous
      ones left behind. */
  function FreeRunSuccesses(plan: Field, counter: int, envs: seq<Services>): nat
    requires !IsPremium(plan)
    decreases |envs|
  {
    if envs == [] then 0
    else
      var acc := QuotaAccounting(plan, counter, envs[0]);
      var next := if acc.written.Some? then acc.written.value else counter;
      (if acc.succeeded then 1 else 0) + FreeRunSuccesses(plan, next, envs[1..])
  }

  /** Sequentially, a non-premium caller gets at most `FreeLimit - counter`
      successful generations, whatever the services do. */
  lemma {:induction false} FreeTierBound(plan: Field, counter: int, envs: seq<Services>)
    requires !IsPremium(plan)
    decreases |envs|
    ensures FreeRunSuccesses(plan, counter, envs) <= if counter >= FreeLimit then 0 else FreeLimit - counter
  {
    if envs != [] {
      var acc := QuotaAccounting(plan, counter, envs[0]);
      var next := if acc.written.Some? then acc.written.value else counter;
      FreeTierBound(plan, next, envs[1..]);
    }
  }

  // ---------------------------------------------------------------------------
  // Summary length budget

  /** The lower-cased summary types the handler recognises. */
  const SummaryTypes: set<string> := {"short", "medium", "long", "bullets"}

  /** The budget step of the summarise handler as written: `maxOutputTokens`
      starts at 200 and the four recognised types assign to the undeclared
      `maxToken`, which throws in module (strict) code. */
  function AsWrittenSummaryBudget(kind: string): (r: Outcome<int>)
    ensures r.Threw? <==> Lower(kind) in SummaryTypes
    ensures r.Returned? ==> r.value == 200
  {
    var t := Lower(kind);
    if t == "short" || t == "medium" || t == "long" || t == "bullets" then Threw(MaxTokenUndeclared)
    else Returned(200)
  }

  /** The budget the handler evidently means: one bound per recognised type,
      200 otherwise. */
  function SummaryBudget(kind: string): (n: int)
    ensures AsWrittenSummaryBudget(kind).Returned? ==> n == AsWrittenSummaryBudget(kind).value
    ensures Lower(kind) in SummaryTypes - {"bullets"} ==> n != 200
    ensures 0 < n <= 1300
  {
    var t := Lower(kind);
    if t == "short" then 80
    else if t == "medium" then 150
    else if t == "long" then 1300
    else if t == "bullets" then 200
    else 200
  }

  /** As written, a recognised summary type never reaches the model. */
  lemma AsWrittenShortThrows()
    ensures AsWrittenSummaryBudget("Short") == Threw(MaxTokenUndeclared)
    ensures SummaryBudget("Short") == 80
  {
  }

  /** Intended: the recognised types get pairwise different bounds, and the
      bound ignores letter case. */
  lemma SummaryBudgetsDistinct(a: string, b: string)
    requires Lower(a) in SummaryTypes && Lower(b) in SummaryTypes && Lower(a) != Lower(b)
    ensures SummaryBudget(a) != SummaryBudget(b)
  {
  }

  // ---------------------------------------------------------------------------
  // Prompt templates: the fixed text between the interpolated values

  const ResumeInstruction :=
    "Review the following resume and provide constructive feedback on its strengths, weeknesses, and areas for improvment. Resume Content:\n\n"

  const SummaryIntro := "\nYou are an expert summarizer. Summarize the following text in a "
  const SummaryGuidelines :=
    " format.\n\nGuidelines:\n- Short: 2–4 sentences\n- Medium: 6–10 sentences\n- Long: Produce a detailed summary of 2–4 paragraphs (200–400 words). \n  Do NOT shorten aggressively. Expand key insights.\n- Bullets: 5–10 bullet points\n- Always preserve meaning and avoid adding fake information.\n\nText:\n"
  const SummaryTail := "\n\nSummary:\n"

  const TranslationIntro := "\nYou are a professional translator.\n\nTranslate the following text\nto "
  const TranslationRules :=
    "\n\nRules:\n- Preserve the original meaning.\n- Keep grammar and style natural for the target language.\n- If the text contains names, brand names, or code do not translate them.\n- Do not explain the translation.\n- Provide only the translated text.\n\nText:\n"
  const TranslationTail := "\n\nTranslated Output:\n\n"

  const CaptionIntro := "\nYou are a professional social media content creator.\n\nGenerate a high-quality caption for the following platform: "
  const CaptionRules :=
    "\n\nRules:\n- Sound natural and engaging.\n- Keep it platform-appropriate.\n- Add relevant hashtags (5–10) unless the user says otherwise.\n- Do NOT add explanations.\n- Provide ONLY the caption.\n\nCaption:\n\n\n"

  const EmailIntro := "\nYou are a professional email writer.\n\nWrite an email based on the following details:\n\nEmail Type: "
  const EmailRules :=
    "\n\nRules:\n- Keep the email natural, clear, and professional.\n- Format properly with greeting, body, and closing.\n- Do NOT include explanations.\n- Do NOT add meta text like “Here is your email”.\n- Provide ONLY the email text.\n\nEmail:\n\n\n"

  function ResumePrompt(text: string): string {
    ResumeInstruction + text
  }

  function SummaryPrompt(kind: string, input: string): string {
    SummaryIntro + kind + SummaryGuidelines + input + SummaryTail
  }

  function TranslationPrompt(targetLanguage: string, tone: string, input: string): string {
    TranslationIntro + targetLanguage + ". \n\nTone: " + tone + TranslationRules + input + TranslationTail
  }

  function CaptionPrompt(platform: string, topic: string, tone: string): string {
    CaptionIntro + platform + ".\nTopic: " + topic + "\nTone/style: " + tone + CaptionRules
  }

  function EmailPrompt(emailType: string, tone: string, subject: string, details: string): string {
    EmailIntro + emailType + "\nTone: " + tone + "\nSubject or Purpose: " + subject
    + "\n\nAdditional details:\n" + details + EmailRules
  }

  // ---------------------------------------------------------------------------
  // The handlers

  /** The persistent state the handlers touch: the `creations` table and each
      user's `free_usage` metadata. */
  class Gateway {
    var creations: seq<Creation>
    var freeUsage: map<Field, int>

    constructor ()
      ensures creations == [] && freeUsage == map[]
    {
      creations := [];
      freeUsage := map[];
    }

    /** POST /generate-article */
    method GenerateArticle(userId: Field, prompt: Field, length: Json, plan: Field, usage: int, env: Services)
      returns (response: Response, calls: seq<Call>)
      modifies this
      ensures var acc := QuotaAccounting(plan, usage, env);
              && creations == old(creations) + (if acc.inserted then [Creation(userId, prompt, env.generation.value, ArticleTag, None)] else [])
              && freeUsage == (if acc.written.Some? then old(freeUsage)[userId := acc.written.value] else old(freeUsage))
              && response.success == acc.succeeded
      ensures QuotaExhausted(plan, usage) ==> response == Fail(LimitReached) && calls == []
      ensures !QuotaExhausted(plan, usage) ==>
                calls == [ChatCompletion(ChatModel, prompt, length)]
                && response == (if env.generation.Threw? then Fail(env.generation.error)
                                else if env.insert.Threw? then Fail(env.insert.error)
                                else if !IsPremium(plan) && env.update.Threw? then Fail(env.update.error)
                                else Done("Article Generated Successfully", "content", env.generation.value))
    {
      calls := [];
      if !IsPremium(plan) && usage >= FreeLimit {
        response := Fail(LimitReached);
        return;
      }
      calls := [ChatCompletion(ChatModel, prompt, length)];
      if env.generation.Threw? {
        response := Fail(env.generation.error);
        return;
      }
      var content := env.generation.value;
      if env.insert.Threw? {
        response := Fail(env.insert.error);
        return;
      }
      creations := creations + [Creation(userId, prompt, content, ArticleTag, None)];
      if !IsPremium(plan) {
        if env.update.Threw? {
          response := Fail(env.update.error);
          return;
        }
        freeUsage := freeUsage[userId := usage + 1];
      }
      response := Done("Article Generated Successfully", "content", content);
    }

    /** POST /generate-blog-title */
    method GenerateBlogTitle(userId: Field, prompt: Field, plan: Field, usage: int, env: Services)
      returns (response: Response, calls: seq<Call>)
      modifies this
      ensures var acc := QuotaAccounting(plan, usage, env);
              && creations == old(creations) + (if acc.inserted then [Creation(userId, prompt, env.generation.value, BlogTitleTag, None)] else [])
              && freeUsage == (if acc.written.Some? then old(freeUsage)[userId := acc.written.value] else old(freeUsage))
              && response.success == acc.succeeded
      ensures QuotaExhausted(plan, usage) ==> response == Fail(LimitReached) && calls == []
      ensures !QuotaExhausted(plan, usage) ==>
                calls == [ChatCompletion(ChatModel, prompt, Number(100.0))]
                && response == (if env.generation.Threw? then Fail(env.generation.error)
                                else if env.insert.Threw? then Fail(env.insert.error)
                                else if !IsPremium(plan) && env.update.Threw? then Fail(env.update.error)
                                else Done("Title Generated Successfully", "content", env.generation.value))
    {
      calls := [];
      if !IsPremium(plan) && usage >= FreeLimit {
        response := Fail(LimitReached);
        return;
      }
      calls := [ChatCompletion(ChatModel, prompt, Number(100.0))];
      if env.generation.Threw? {
        response := Fail(env.generation.error);
        return;
      }
      var content := env.generation.value;
      if env.insert.Threw? {
        response := Fail(env.insert.error);
        return;
      }
      creations := creations + [Creation(userId, prompt, content, BlogTitleTag, None)];
      if !IsPremium(plan) {
        if env.update.Threw? {
          response := Fail(env.update.error);
          return;
        }
        freeUsage := freeUsage[userId := usage + 1];
      }
      response := Done("Title Generated Successfully", "content", content);
    }

    /** POST /generate-image. The `publish ? true : false` coercion is `Truthy`. */
    method GenerateImage(userId: Field, prompt: Field, publish: Json, plan: Field, env: Services)
      returns (response: Response, calls: seq<Call>)
      modifies this
      ensures freeUsage == old(freeUsage)
      ensures !IsPremium(plan) ==> response == Fail(PremiumOnly) && calls == [] && creations == old(creations)
      ensures IsPremium(plan) ==>
                calls == [TextToImage(prompt)]
                && creations == old(creations)
                     + (if env.generation.Returned? && env.insert.Returned?
                        then [Creation(userId, prompt, env.generation.value, ImageTag, Some(Truthy(publish)))] else [])
                && response == (if env.generation.Threw? then Fail(env.generation.error)
                                else if env.insert.Threw? then Fail(env.insert.error)
                                else Done("Image Generated Successfully", "content", env.generation.value))
    {
      calls := [];
      if !IsPremium(plan) {
        response := Fail(PremiumOnly);
        return;
      }
      calls := [TextToImage(prompt)];
      if env.generation.Threw? {
        response := Fail(env.generation.error);
        return;
      }
      var secureUrl := env.generation.value;
      if env.insert.Threw? {
        response := Fail(env.insert.error);
        return;
      }
      creations := creations + [Creation(userId, prompt, secureUrl, ImageTag, Some(Truthy(publish)))];
      response := Done("Image Generated Successfully", "content", secureUrl);
    }

    /** POST /remove-image-background */
    method RemoveImageBackground(userId: Field, image: Option<Upload>, plan: Field, env: Services)
      returns (response: Response, calls: seq<Call>)
      modifies this
      ensures freeUsage == old(freeUsage)
      ensures !IsPremium(plan) ==> response == Fail(PremiumOnly) && calls == [] && creations == old(creations)
      ensures IsPremium(plan) && image.None? ==> response == Fail(NoFilePath) && calls == [] && creations == old(creations)
      ensures IsPremium(plan) && image.Some? ==>
                calls == [RemoveBackground(image.value.path)]
                && creations == old(creations)
                     + (if env.generation.Returned? && env.insert.Returned?
                        then [Creation(userId, Some("Remove background from the image"), env.generation.value, ImageTag, None)] else [])
                && response == (if env.generation.Threw? then Fail(env.generation.error)
                                else if env.insert.Threw? then Fail(env.insert.error)
                                else Done("Background Removed Successfully", "content", env.generation.value))
    {
      calls := [];
      if !IsPremium(plan) {
        response := Fail(PremiumOnly);
        return;
      }
      if image.None? {
        response := Fail(NoFilePath);
        return;
      }
      calls := [RemoveBackground(image.value.path)];
      if env.generation.Threw? {
        response := Fail(env.generation.error);
        return;
      }
      var secureUrl := env.generation.value;
      if env.insert.Threw? {
        response := Fail(env.insert.error);
        return;
      }
      creations := creations + [Creation(userId, Some("Remove background from the image"), secureUrl, ImageTag, None)];
      response := Done("Background Removed Successfully", "content", secureUrl);
    }

    /** POST /remove-image-object. The server does not count the words of `object`. */
    method RemoveImageObject(userId: Field, image: Option<Upload>, target: Field, plan: Field, env: Services)
      returns (response: Response, calls: seq<Call>)
      modifies this
      ensures freeUsage == old(freeUsage)
      ensures !IsPremium(plan) ==> response == Fail(PremiumOnly) && calls == [] && creations == old(creations)
      ensures IsPremium(plan) && image.None? ==> response == Fail(NoFilePath) && calls == [] && creations == old(creations)
      ensures IsPremium(plan) && image.Some? ==>
                calls == [GenRemove(image.value.path, "gen_remove:" + Text(target))]
                && creations == old(creations)
                     + (if env.generation.Returned? && env.insert.Returned?
                        then [Creation(userId, Some("Removed " + Text(target) + " from image"), env.generation.value, ImageTag, None)] else [])
                && response == (if env.generation.Threw? then Fail(env.generation.error)
                                else if env.insert.Threw? then Fail(env.insert.error)
                                else Done("Object Removed Successfully", "content", env.generation.value))
    {
      calls := [];
      if !IsPremium(plan) {
        response := Fail(PremiumOnly);
        return;
      }
      if image.None? {
        response := Fail(NoFilePath);
        return;
      }
      calls := [GenRemove(image.value.path, "gen_remove:" + Text(target))];
      if env.generation.Threw? {
        response := Fail(env.generation.error);
        return;
      }
      var imageUrl := env.generation.value;
      if env.insert.Threw? {
        response := Fail(env.insert.error);
        return;
      }
      creations := creations + [Creation(userId, Some("Removed " + Text(target) + " from image"), imageUrl, ImageTag, None)];
      response := Done("Object Removed Successfully", "content", imageUrl);
    }

    /** POST /resume-review. Its `catch` replies with the error in `content` and no `message`. */
    method ResumeReview(userId: Field, resume: Option<Upload>, plan: Field, env: Services)
      returns (response: Response, calls: seq<Call>)
      modifies this
      ensures freeUsage == old(freeUsage)
      ensures !IsPremium(plan) ==> response == Fail(PremiumOnly) && calls == [] && creations == old(creations)
      ensures IsPremium(plan) && resume.None? ==>
                response == Response(false, None, Some(Payload("content", NoFileSize)))
                && calls == [] && creations == old(creations)
      ensures IsPremium(plan) && resume.Some? && resume.value.size > MaxResumeBytes ==>
                response == Fail(ResumeTooLarge) && calls == [] && creations == old(creations)
      ensures IsPremium(plan) && resume.Some? && resume.value.size <= MaxResumeBytes ==>
                var thrown := if env.parse.Threw? then Some(env.parse.error)
                              else if env.generation.Threw? then Some(env.generation.error)
                              else if env.insert.Threw? then Some(env.insert.error)
                              else None;
                && calls == [ParsePdf(resume.value.path)]
                     + (if env.parse.Returned? then [ChatCompletion(ChatModel, Some(ResumePrompt(env.parse.value)), Number(1000.0))] else [])
                && creations == old(creations)
                     + (if thrown.None? then [Creation(userId, Some("Review the uploaded resume"), env.generation.value, ResumeTag, None)] else [])
                && response == (if thrown.Some? then Response(false, None, Some(Payload("content", thrown.value)))
                                else Done(ResumeReviewed, "content", env.generation.value))
    {
      calls := [];
      if !IsPremium(plan) {
        response := Fail(PremiumOnly);
        return;
      }
      if resume.None? {
        response := Response(false, None, Some(Payload("content", NoFileSize)));
        return;
      }
      if resume.value.size > MaxResumeBytes {
        response := Fail(ResumeTooLarge);
        return;
      }
      calls := [ParsePdf(resume.value.path)];
      if env.parse.Threw? {
        response := Response(false, None, Some(Payload("content", env.parse.error)));
        return;
      }
      var prompt := ResumePrompt(env.parse.value);
      calls := calls + [ChatCompletion(ChatModel, Some(prompt), Number(1000.0))];
      if env.generation.Threw? {
        response := Response(false, None, Some(Payload("content", env.generation.error)));
        return;
      }
      var content := env.generation.value;
      if env.insert.Threw? {
        response := Response(false, None, Some(Payload("content", env.insert.error)));
        return;
      }
      creations := creations + [Creation(userId, Some("Review the uploaded resume"), content, ResumeTag, None)];
      response := Done(ResumeReviewed, "content", content);
    }

    /** POST summarise (not mounted by the router). `kind` is the body's `type`.
        Uses the intended length budget, `SummaryBudget`. */
    method SummarizeText(userId: Field, input: Field, kind: Field, plan: Field, env: Services)
      returns (response: Response, calls: seq<Call>)
      modifies this
      ensures freeUsage == old(freeUsage)
      ensures FirstFailing(SummarizeChecks(userId, input, plan), 0).Some? ==>
                response == Fail(FirstFailing(SummarizeChecks(userId, input, plan), 0).value)
                && calls == [] && creations == old(creations)
      ensures FirstFailing(SummarizeChecks(userId, input, plan), 0).None? && kind.None? ==>
                response == Fail(TryAgain) && calls == [] && creations == old(creations)
      ensures FirstFailing(SummarizeChecks(userId, input, plan), 0).None? && kind.Some? ==>
                var prompt := SummaryPrompt(kind.value, Text(input));
                var ok := env.generation.Returned? && env.insert.Returned?;
                && calls == [GenerateContent(GenAiModel, prompt, SummaryBudget(kind.value))]
                && creations == old(creations) + (if ok then [Creation(userId, Some(prompt), env.generation.value, SummaryTag, None)] else [])
                && response == (if ok then Done("summarized your text!.", "content", env.generation.value) else Fail(TryAgain))
    {
      calls := [];
      ghost var checks := SummarizeChecks(userId, input, plan);
      if Falsy(userId) {
        FirstFailingAt(checks, 0, 0);
        response := Fail(NotAuthorized);
        return;
      }
      if Falsy(input) {
        FirstFailingAt(checks, 0, 1);
        response := Fail(EnterText);
        return;
      }
      if !IsPremium(plan) {
        FirstFailingAt(checks, 0, 2);
        response := Fail(PremiumOnly);
        return;
      }
      FirstFailingAt(checks, 0, |checks|);
      var prompt := SummaryPrompt(Text(kind), Text(input));
      if kind.None? {
        // `type.toLowerCase()` on undefined throws
        response := Fail(TryAgain);
        return;
      }
      var maxOutputTokens := 200;
      var lowered := Lower(kind.value);
      if lowered == "short" { maxOutputTokens := 80; }
      if lowered == "medium" { maxOutputTokens := 150; }
      if lowered == "long" { maxOutputTokens := 1300; }
      if lowered == "bullets" { maxOutputTokens := 200; }
      calls := [GenerateContent(GenAiModel, prompt, maxOutputTokens)];
      if env.generation.Threw? || env.insert.Threw? {
        response := Fail(TryAgain);
        return;
      }
      var content := env.generation.value;
      creations := creations + [Creation(userId, Some(prompt), content, SummaryTag, None)];
      response := Done("summarized your text!.", "content", content);
    }

    /** POST translate (not mounted by the router). */
    method TranslateText(userId: Field, input: Field, targetLanguage: Field, tone: Field, plan: Field, env: Services)
      returns (response: Response, calls: seq<Call>)
      modifies this
      ensures freeUsage == old(freeUsage)
      ensures FirstFailing(TranslateChecks(userId, input, targetLanguage, tone, plan), 0).Some? ==>
                response == Fail(FirstFailing(TranslateChecks(userId, input, targetLanguage, tone, plan), 0).value)
                && calls == [] && creations == old(creations)
      ensures FirstFailing(TranslateChecks(userId, input, targetLanguage, tone, plan), 0).None? ==>
                var prompt := TranslationPrompt(Text(targetLanguage), Text(tone), Text(input));
                var ok := env.generation.Returned? && env.insert.Returned?;
                && calls == [GenerateContent(GenAiModel, prompt, 500)]
                && creations == old(creations) + (if ok then [Creation(userId, Some(prompt), env.generation.value, TranslationTag, None)] else [])
                && response == (if ok then Done("Translation completed", "translation", env.generation.value) else Fail(TryAgain))
    {
      calls := [];
      ghost var checks := TranslateChecks(userId, input, targetLanguage, tone, plan);
      if Falsy(userId) {
        FirstFailingAt(checks, 0, 0);
        response := Fail(NotAuthorized);
        return;
      }
      if Falsy(input) {
        FirstFailingAt(checks, 0, 1);
        response := Fail(EnterText);
        return;
      }
      if Falsy(targetLanguage) {
        FirstFailingAt(checks, 0, 2);
        response := Fail(NoTargetLanguage);
        return;
      }
      if Falsy(tone) {
        FirstFailingAt(checks, 0, 3);
        response := Fail(SelectTone);
        return;
      }
      if !IsPremium(plan) {
        FirstFailingAt(checks, 0, 4);
        response := Fail(PremiumOnly);
        return;
      }
      FirstFailingAt(checks, 0, |checks|);
      var prompt := TranslationPrompt(Text(targetLanguage), Text(Or(tone, Some("neutral"))), Text(input));
      calls := [GenerateContent(GenAiModel, prompt, 500)];
      if env.generation.Threw? || env.insert.Threw? {
        response := Fail(TryAgain);
        return;
      }
      var translated := env.generation.value;
      creations := creations + [Creation(userId, Some(prompt), translated, TranslationTag, None)];
      response := Done("Translation completed", "translation", translated);
    }

    /** POST social caption (not mounted by the router). */
    method GenerateSocialCaption(userId: Field, topic: Field, platform: Field, tone: Field, plan: Field, env: Services)
      returns (response: Response, calls: seq<Call>)
      modifies this
      ensures freeUsage == old(freeUsage)
      ensures FirstFailing(CaptionChecks(userId, topic, platform, tone, plan), 0).Some? ==>
                response == Fail(FirstFailing(CaptionChecks(userId, topic, platform, tone, plan), 0).value)
                && calls == [] && creations == old(creations)
      ensures FirstFailing(CaptionChecks(userId, topic, platform, tone, plan), 0).None? ==>
                var prompt := CaptionPrompt(Text(platform), Text(topic), Text(tone));
                var ok := env.generation.Returned? && env.insert.Returned?;
                && calls == [GenerateContent(GenAiModel, prompt, 300)]
                && creations == old(creations) + (if ok then [Creation(userId, Some(prompt), env.generation.value, CaptionTag, None)] else [])
                && response == (if ok then Done("Caption Generated", "caption", env.generation.value) else Fail(TryAgain))
    {
      calls := [];
      ghost var checks := CaptionChecks(userId, topic, platform, tone, plan);
      if Falsy(userId) {
        FirstFailingAt(checks, 0, 0);
        response := Fail(NotAuthorized);
        return;
      }
      if Falsy(topic) {
        FirstFailingAt(checks, 0, 1);
        response := Fail(EnterTopic);
        return;
      }
      if Falsy(platform) {
        FirstFailingAt(checks, 0, 2);
        response := Fail(SelectPlatform);
        return;
      }
      if Falsy(tone) {
        FirstFailingAt(checks, 0, 3);
        response := Fail(SelectToneAgain);
        return;
      }
      if !IsPremium(plan) {
        FirstFailingAt(checks, 0, 4);
        response := Fail(PremiumOnly);
        return;
      }
      FirstFailingAt(checks, 0, |checks|);
      var prompt := CaptionPrompt(Text(platform), Text(topic), Text(tone));
      calls := [GenerateContent(GenAiModel, prompt, 300)];
      if env.generation.Threw? || env.insert.Threw? {
        response := Fail(TryAgain);
        return;
      }
      var caption := env.generation.value;
      creations := creations + [Creation(userId, Some(prompt), caption, CaptionTag, None)];
      response := Done("Caption Generated", "caption", caption);
    }

    /** POST email (not mounted by the router). */
    method GenerateEmail(userId: Field, subject: Field, details: Field, tone: Field, emailType: Field, plan: Field, env: Services)
      returns (response: Response, calls: seq<Call>)
      modifies this
      ensures freeUsage == old(freeUsage)
      ensures FirstFailing(EmailChecks(userId, subject, details, tone, emailType, plan), 0).Some? ==>
                response == Fail(FirstFailing(EmailChecks(userId, subject, details, tone, emailType, plan), 0).value)
                && calls == [] && creations == old(creations)
      ensures FirstFailing(EmailChecks(userId, subject, details, tone, emailType, plan), 0).None? ==>
                var prompt := EmailPrompt(Text(emailType), Text(tone), Text(subject), Text(details));
                var ok := env.generation.Returned? && env.insert.Returned?;
                && calls == [GenerateContent(GenAiModel, prompt, 300)]
                && creations == old(creations) + (if ok then [Creation(userId, Some(prompt), env.generation.value, EmailTag, None)] else [])
                && response == (if ok then Done("Email generated successfully!", "email", env.generation.value) else Fail(TryAgainLater))
    {
      calls := [];
      ghost var checks := EmailChecks(userId, subject, details, tone, emailType, plan);
      if Falsy(userId) {
        FirstFailingAt(checks, 0, 0);
        response := Fail(NotAuthorized);
        return;
      }
      if Falsy(subject) {
        FirstFailingAt(checks, 0, 1);
        response := Fail(EnterSubject);
        return;
      }
      if Falsy(details) {
        FirstFailingAt(checks, 0, 2);
        response := Fail(EnterDetails);
        return;
      }
      if Falsy(tone) {
        FirstFailingAt(checks, 0, 3);
        response := Fail(SelectToneAgain);
        return;
      }
      if Falsy(emailType) {
        FirstFailingAt(checks, 0, 4);
        response := Fail(SelectEmailType);
        return;
      }
      if !IsPremium(plan) {
        FirstFailingAt(checks, 0, 5);
        response := Fail(PremiumOnly);
        return;
      }
      FirstFailingAt(checks, 0, |checks|);
      // `subject || purpose`: `subject` passed its check, so the undeclared
      // `purpose` is never evaluated.
      var prompt := EmailPrompt(Text(emailType), Text(tone), Text(subject), Text(details));
      calls := [GenerateContent(GenAiModel, prompt, 300)];
      if env.generation.Threw? || env.insert.Threw? {
        response := Fail(TryAgainLater);
        return;
      }
      var emailText := env.generation.value;
      creations := creations + [Creation(userId, Some(prompt), emailText, EmailTag, None)];
      response := Done("Email generated successfully!", "email", emailText);
    }
  }
}
