/**
 * `dingtalksd.py`: the decisions the Stable Diffusion bot makes around one generation —
 * the option defaults it picks for the platform, whether a prompt goes to the translation
 * service, how far along the progress card says it is, and which notices `txt2img` sends
 * through the messenger.
 */
module StableDiffusion {
  import opened Wrappers
  import opened Text
  import opened Chatbot
  import opened ImageComposer
  import opened CardAddress
  import opened CardContent
  import opened Messaging

  // ----- options -----

  /** The parsed command line; `device` and `subprocess` stay `None` when not given. */
  datatype Options = Options(clientId: string, clientSecret: string, device: Option<string>,
                             messageType: string, subprocess: Option<bool>)

  /**
   * The defaulting at the end of `define_options`: a missing device or subprocess flag
   * is first set for macOS and then overwritten for Google Colab, so Colab wins when both
   * hold and nothing is set when neither does. Values given on the command line are kept.
   */
  function ApplyDefaults(o: Options, isDarwin: bool, isColab: bool): (r: Options)
    ensures r.clientId == o.clientId && r.clientSecret == o.clientSecret && r.messageType == o.messageType
    ensures o.device.Some? ==> r.device == o.device
    ensures o.subprocess.Some? ==> r.subprocess == o.subprocess
    ensures o.device.None? ==>
      r.device == (if isColab then Some("cuda") else if isDarwin then Some("mps") else None)
    ensures o.subprocess.None? ==>
      r.subprocess == (if isColab then Some(false) else if isDarwin then Some(true) else None)
  {
    var o1 :=
      if o.device.None? then
        var afterDarwin := if isDarwin then o.(device := Some("mps")) else o;
        if isColab then afterDarwin.(device := Some("cuda")) else afterDarwin
      else o;
    if o1.subprocess.None? then
      var afterDarwin := if isDarwin then o1.(subprocess := Some(true)) else o1;
      if isColab then afterDarwin.(subprocess := Some(false)) else afterDarwin
    else o1
  }

  /** Defaulting twice is defaulting once: a value it filled in counts as given. */
  lemma ApplyDefaultsIdempotent(o: Options, isDarwin: bool, isColab: bool)
    ensures ApplyDefaults(ApplyDefaults(o, isDarwin, isColab), isDarwin, isColab) == ApplyDefaults(o, isDarwin, isColab)
  {
  }

  // ----- prompt translation -----

  /** The range U+4E00..U+9FA5 of CJK unified ideographs the prompt is searched for. */
  predicate IsChineseChar(c: char) {
    '\U{4E00}' <= c <= '\U{9FA5}'
  }

  /** `is_contain_chinese`: whether `[一-龥]+` matches somewhere in `s`. */
  function ContainsChinese(s: string): bool {
    s != [] && (IsChineseChar(s[0]) || ContainsChinese(s[1..]))
  }

  /** The pattern matches exactly when one character of `s` lies in the range. */
  lemma {:induction false} ContainsChineseIffSomeChineseChar(s: string)
    ensures ContainsChinese(s) <==> exists i :: 0 <= i < |s| && IsChineseChar(s[i])
  {
    if s != [] {
      ContainsChineseIffSomeChineseChar(s[1..]);
      if ContainsChinese(s) && !IsChineseChar(s[0]) {
        var j :| 0 <= j < |s[1..]| && IsChineseChar(s[1..][j]);
        assert IsChineseChar(s[j + 1]);
      }
      if i :| 0 < i < |s| && IsChineseChar(s[i]) {
        assert IsChineseChar(s[1..][i - 1]);
      }
    }
  }

  /**
   * `translate_prompt`: the prompt goes to the translation service (Chinese to English)
   * only when it contains a Chinese character; otherwise it is used as it is.
   */
  function TranslatePrompt(translate: string -> string, prompt: string): string {
    if ContainsChinese(prompt) then translate(prompt) else prompt
  }

  /** A prompt without a character of the range reaches the pipeline unchanged. */
  lemma PromptWithoutChineseIsKept(translate: string -> string, prompt: string)
    requires forall i :: 0 <= i < |prompt| ==> !IsChineseChar(prompt[i])
    ensures TranslatePrompt(translate, prompt) == prompt
  {
    ContainsChineseIffSomeChineseChar(prompt);
  }

  /** A prompt with a Chinese character anywhere is replaced by its translation. */
  lemma PromptWithChineseIsTranslated(translate: string -> string, prompt: string, i: int)
    requires 0 <= i < |prompt| && IsChineseChar(prompt[i])
    ensures TranslatePrompt(translate, prompt) == translate(prompt)
  {
    ContainsChineseIffSomeChineseChar(prompt);
  }

  // ----- progress -----

  /** Python's `int(a / b)` for `b > 0`: the quotient rounded toward zero. */
  function TruncDiv(a: int, b: int): int
    requires b > 0
  {
    if a >= 0 then a / b else -((-a) / b)
  }

  /** The truncated quotient is the floor for `a >= 0` and the ceiling for `a < 0`. */
  lemma TruncDivBounds(a: int, b: int)
    requires b > 0
    ensures var q := TruncDiv(a, b);
      (a >= 0 ==> 0 <= q && q * b <= a < q * b + b) &&
      (a < 0 ==> q <= 0 && q * b - b < a <= q * b)
  {
  }

  /** The step the bar reports: one less once the pipeline has started; a step of 0 or below as it is. */
  function EffectiveStep(step: int): int {
    if step > 0 then step - 1 else step
  }

  /**
   * `callback`'s percentage: `None` when it returns without a notice (no steps, or a
   * step past the last), otherwise the effective step as a whole percentage of the steps.
   */
  function CallbackPercent(step: int, num: int): (r: Option<int>)
    ensures r.None? <==> num <= 0 || step > num
  {
    if num <= 0 || step > num then None else Some(TruncDiv(EffectiveStep(step) * 100, num))
  }

  /** `'%d%%' % p`. */
  function ProgressLabel(p: int): string {
    IntToString(p) + "%"
  }

  /**
   * For the steps the pipeline makes (0 to `num`) the card shows 0% to 99%, never 100%:
   * the largest whole percentage not above the effective step's share.
   */
  lemma PercentInRange(step: int, num: int)
    requires 0 < num && 0 <= step <= num
    ensures CallbackPercent(step, num).Some?
    ensures var p := CallbackPercent(step, num).value;
      0 <= p <= 99 && p * num <= EffectiveStep(step) * 100 < p * num + num
  {
    var e := EffectiveStep(step);
    TruncDivBounds(e * 100, num);
    var p := CallbackPercent(step, num).value;
    MulMonotonic(e, num - 1, 100);
    if p > 99 {
      MulMonotonic(100, p, num);
    }
  }

  lemma MulMonotonic(a: int, b: int, c: int)
    requires a <= b && c > 0
    ensures a * c <= b * c
  {
    assert (b - a) * c >= 0;
  }

  /** Later steps never show a smaller percentage. */
  lemma PercentMonotonic(s1: int, s2: int, num: int)
    requires 0 < num && 0 <= s1 <= s2 <= num
    ensures CallbackPercent(s1, num).Some? && CallbackPercent(s2, num).Some?
    ensures CallbackPercent(s1, num).value <= CallbackPercent(s2, num).value
  {
    PercentInRange(s1, num);
    PercentInRange(s2, num);
    var p1 := CallbackPercent(s1, num).value;
    var p2 := CallbackPercent(s2, num).value;
    if p1 > p2 {
      MulMonotonic(p2 + 1, p1, num);
    }
  }

  /** The first two steps both show 0%, the first notice `txt2img` itself sends. */
  lemma FirstStepsShowZero(num: int)
    requires num > 0
    ensures CallbackPercent(0, num) == Some(0) && CallbackPercent(1, num) == Some(0)
    ensures ProgressLabel(0) == "0%"
  {
  }

  /**
   * The step is decremented only when positive, so a negative step passes through and
   * a step of at most `-num / 100` is shown as a negative percentage.
   */
  lemma NegativeStepShowsNegativePercent(step: int, num: int)
    requires 0 < num && step < 0 && -step * 100 >= num
    ensures CallbackPercent(step, num).Some?
    ensures CallbackPercent(step, num).value < 0
    ensures ProgressLabel(CallbackPercent(step, num).value)[0] == '-'
  {
    TruncDivBounds(step * 100, num);
    IntToStringSign(CallbackPercent(step, num).value);
  }

  /** The events one call of `callback` adds to the messenger's trace. */
  function TickEvents(env: Collaborators, t: seq<Event>, step: int, num: int, count: int,
                      elapsed: Millis, m: IncomingMessage): seq<Event>
  {
    match CallbackPercent(step, num)
    case None => []
    case Some(p) => ReplyProgressEvents(env, t, false, Some(ProgressLabel(p)), count, elapsed, m)
  }

  /**
   * A callback either sends nothing or updates, never creates, the thread's card with
   * its percentage and the bar's own count of placeholder images.
   */
  lemma CallbackEffects(env: Collaborators, t: seq<Event>, step: int, num: int, count: int,
                        elapsed: Millis, m: IncomingMessage)
    ensures num <= 0 || step > num ==> TickEvents(env, t, step, num, count, elapsed, m) == []
    ensures 0 < num && step <= num ==>
      var evs := TickEvents(env, t, step, num, count, elapsed, m);
      |evs| == 1 && evs[0].Called? && evs[0].request.UpdateCard? &&
      evs[0].request.cardBizId == GenCardId(env.digest, m) &&
      evs[0].request.card ==
        CardArgs(Some(ProgressLabel(CallbackPercent(step, num).value)), ProgressImages(count), elapsed, m)
  {
  }

  /**
   * `ProgressBar`: what the pipeline calls back after each step. Its fields are set once
   * on construction. The clock is left out: each callback receives the elapsed time.
   */
  class ProgressBar {
    const numInferenceSteps: int
    const imageCount: int
    const messenger: Messenger
    const incomingMessage: IncomingMessage

    constructor (numInferenceSteps: int, imageCount: int, messenger: Messenger, incomingMessage: IncomingMessage)
      ensures this.numInferenceSteps == numInferenceSteps && this.imageCount == imageCount
      ensures this.messenger == messenger && this.incomingMessage == incomingMessage
    {
      this.numInferenceSteps := numInferenceSteps;
      this.imageCount := imageCount;
      this.messenger := messenger;
      this.incomingMessage := incomingMessage;
    }

    method Callback(step: int, elapsed: Millis)
      modifies messenger
      ensures messenger.trace == old(messenger.trace) +
        TickEvents(messenger.env, old(messenger.trace), step, numInferenceSteps, imageCount, elapsed, incomingMessage)
    {
      if numInferenceSteps <= 0 || step > numInferenceSteps {
        return;
      }
      var s := step;
      if s > 0 {
        s := s - 1;
      }
      var progress := ProgressLabel(TruncDiv(s * 100, numInferenceSteps));
      var isNew := false;
      messenger.ReplyProgress(isNew, Some(progress), imageCount, elapsed, incomingMessage);
    }

    /** The pipeline calling the bar back once per tick, in order. */
    method ReceiveCallbacks(ticks: seq<Tick>)
      modifies messenger
      ensures messenger.trace == old(messenger.trace) +
        TicksEvents(messenger.env, old(messenger.trace), ticks, numInferenceSteps, imageCount, incomingMessage)
    {
      ghost var t1 := messenger.trace;
      var i := 0;
      while i < |ticks|
        invariant 0 <= i <= |ticks|
        invariant messenger.trace == t1 + TicksEvents(messenger.env, t1, ticks[..i], numInferenceSteps, imageCount, incomingMessage)
      {
        ghost var before := TicksEvents(messenger.env, t1, ticks[..i], numInferenceSteps, imageCount, incomingMessage);
        TicksEventsStep(messenger.env, t1, ticks, i, numInferenceSteps, imageCount, incomingMessage);
        Callback(ticks[i].step, ticks[i].elapsed);
        assert messenger.trace == t1 + (before +
          TickEvents(messenger.env, t1 + before, ticks[i].step, numInferenceSteps, imageCount, ticks[i].elapsed, incomingMessage));
        i := i + 1;
      }
      assert ticks[..i] == ticks;
    }
  }

  // ----- txt2img -----

  /** One call the pipeline makes to the bar: the step and the time elapsed by then. */
  datatype Tick = Tick(step: int, elapsed: Millis)

  /** What one run of the pipeline does: its callbacks in order and the images it returns. */
  datatype PipelineRun = PipelineRun(ticks: seq<Tick>, images: seq<Image>)

  /** The number of inference steps `txt2img` asks for. */
  const NumInferenceSteps := 50

  /** Two images when four-image mode is on, one otherwise. */
  function ImageCount(enableFourImages: bool): int {
    if enableFourImages then 2 else 1
  }

  /** The events a run of callbacks adds, the last callback's last. */
  function TicksEvents(env: Collaborators, t: seq<Event>, ticks: seq<Tick>, num: int, count: int,
                       m: IncomingMessage): seq<Event>
  {
    if ticks == [] then []
    else
      var before := TicksEvents(env, t, ticks[..|ticks| - 1], num, count, m);
      var last := ticks[|ticks| - 1];
      before + TickEvents(env, t + before, last.step, num, count, last.elapsed, m)
  }

  lemma TicksEventsStep(env: Collaborators, t: seq<Event>, ticks: seq<Tick>, i: nat, num: int, count: int,
                        m: IncomingMessage)
    requires i < |ticks|
    ensures var before := TicksEvents(env, t, ticks[..i], num, count, m);
      TicksEvents(env, t, ticks[..i + 1], num, count, m) ==
        before + TickEvents(env, t + before, ticks[i].step, num, count, ticks[i].elapsed, m)
  {
    assert ticks[..i + 1][..i] == ticks[..i];
  }

  /** How many of the callbacks fall within the steps and so send a notice. */
  function Reported(ticks: seq<Tick>, num: int): nat {
    if ticks == [] then 0
    else Reported(ticks[..|ticks| - 1], num) + (if num <= 0 || ticks[|ticks| - 1].step > num then 0 else 1)
  }

  /** The notices of `txt2img`: a new progress card at 0%, then the callbacks' notices. */
  function Txt2ImgEvents(env: Collaborators, t: seq<Event>, count: int, run: PipelineRun,
                         startElapsed: Millis, m: IncomingMessage): seq<Event>
  {
    var first := ReplyProgressEvents(env, t, true, Some("0%"), count, startElapsed, m);
    first + TicksEvents(env, t + first, run.ticks, NumInferenceSteps, count, m)
  }

  /** The notices of `txt2img` are the first one followed by the callbacks' notices. */
  lemma Txt2ImgEventsSplit(env: Collaborators, t0: seq<Event>, t1: seq<Event>, count: int, run: PipelineRun,
                           startElapsed: Millis, m: IncomingMessage)
    requires t1 == t0 + ReplyProgressEvents(env, t0, true, Some("0%"), count, startElapsed, m)
    ensures t1 + TicksEvents(env, t1, run.ticks, NumInferenceSteps, count, m) ==
      t0 + Txt2ImgEvents(env, t0, count, run, startElapsed, m)
  {
    var first := ReplyProgressEvents(env, t0, true, Some("0%"), count, startElapsed, m);
    var rest := TicksEvents(env, t1, run.ticks, NumInferenceSteps, count, m);
    assert Txt2ImgEvents(env, t0, count, run, startElapsed, m) == first + rest;
    assert (t0 + first) + rest == t0 + (first + rest);
  }

  /** The callbacks only update the thread's card, one update per reported step. */
  lemma {:induction false} TicksOnlyUpdate(env: Collaborators, t: seq<Event>, ticks: seq<Tick>, num: int,
                                           count: int, m: IncomingMessage)
    ensures var evs := TicksEvents(env, t, ticks, num, count, m);
      |evs| == Reported(ticks, num) &&
      forall i :: 0 <= i < |evs| ==>
        evs[i].Called? && evs[i].request.UpdateCard? && evs[i].request.cardBizId == GenCardId(env.digest, m) &&
        evs[i].request.card.images == ProgressImages(count) && evs[i].request.card.msg == m
  {
    if ticks != [] {
      var init := ticks[..|ticks| - 1];
      var last := ticks[|ticks| - 1];
      TicksOnlyUpdate(env, t, init, num, count, m);
      var before := TicksEvents(env, t, init, num, count, m);
      CallbackEffects(env, t + before, last.step, num, count, last.elapsed, m);
    }
  }

  /**
   * What `txt2img` sends: first a new card for the thread at 0% with one placeholder per
   * requested image, then one update of that same card per reported step; no other
   * request, and the card id is the thread's throughout.
   */
  lemma Txt2ImgNotifications(env: Collaborators, t: seq<Event>, count: int, run: PipelineRun,
                             startElapsed: Millis, m: IncomingMessage)
    ensures var evs := Txt2ImgEvents(env, t, count, run, startElapsed, m);
      |evs| == 1 + Reported(run.ticks, NumInferenceSteps) &&
      evs[0].Called? && evs[0].request.SendCard? && evs[0].request.cardBizId == GenCardId(env.digest, m) &&
      evs[0].request.card == CardArgs(Some("0%"), ProgressImages(count), startElapsed, m) &&
      forall i :: 1 <= i < |evs| ==>
        evs[i].Called? && evs[i].request.UpdateCard? && evs[i].request.cardBizId == GenCardId(env.digest, m) &&
        evs[i].request.card.images == ProgressImages(count) && evs[i].request.card.msg == m
  {
    var first := ReplyProgressEvents(env, t, true, Some("0%"), count, startElapsed, m);
    var rest := TicksEvents(env, t + first, run.ticks, NumInferenceSteps, count, m);
    TicksOnlyUpdate(env, t + first, run.ticks, NumInferenceSteps, count, m);
    var evs := Txt2ImgEvents(env, t, count, run, startElapsed, m);
    assert evs == first + rest;
    forall i | 1 <= i < |evs|
      ensures evs[i] == rest[i - 1]
    {
    }
  }


  /**
   * `StableDiffusionBot`: the part of the chatbot handler that runs a generation. The
   * messenger and the translation service are fixed when the bot starts.
   */
  class StableDiffusionBot {
    const enableFourImages: bool
    const messenger: Messenger
    const translate: string -> string

    constructor (messenger: Messenger, translate: string -> string)
      ensures enableFourImages
      ensures this.messenger == messenger && this.translate == translate
    {
      this.enableFourImages := true;
      this.messenger := messenger;
      this.translate := translate;
    }

    /**
     * `txt2img`: announce a new card at 0%, run the pipeline on the stripped and, when
     * Chinese, translated prompt for the image count with a progress bar attached, and
     * give back its images, or nothing when it returned fewer than requested.
     * The pipeline is a parameter: for the prompt, the step count and the image count it
     * returns the callbacks it makes and the images.
     */
    method Txt2Img(pipe: (string, int, int) -> PipelineRun, startElapsed: Millis, m: IncomingMessage)
      returns (images: Option<seq<Image>>)
      modifies messenger
      ensures var count := ImageCount(enableFourImages);
        var run := pipe(TranslatePrompt(translate, Strip(m.textContent)), NumInferenceSteps, count);
        messenger.trace == old(messenger.trace) + Txt2ImgEvents(messenger.env, old(messenger.trace), count, run, startElapsed, m) &&
        (images.None? <==> |run.images| < count) &&
        (images.Some? ==> images.value == run.images)
    {
      var imageCount := 1;
      if enableFourImages {
        imageCount := 2;
      }
      var isNew := true;
      ghost var t0 := messenger.trace;
      messenger.ReplyProgress(isNew, Some("0%"), imageCount, startElapsed, m);
      ghost var t1 := messenger.trace;
      var prompt := Strip(m.textContent);
      var promptEn := TranslatePrompt(translate, prompt);
      var numInferenceSteps := NumInferenceSteps;
      var progress := new ProgressBar(numInferenceSteps, imageCount, messenger, m);
      var run := pipe(promptEn, numInferenceSteps, imageCount);
      progress.ReceiveCallbacks(run.ticks);
      Txt2ImgEventsSplit(messenger.env, t0, t1, imageCount, run, startElapsed, m);
      if |run.images| < imageCount {
        return None;
      }
      return Some(run.images);
    }
  }
}
