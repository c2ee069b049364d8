/**
 * `Messenger`: the reply lifecycle. A reply is a sequence of collaborator calls —
 * media uploads and HTTP requests — recorded in a trace. The collaborators are given
 * as functions of the trace so far, so any scripted behaviour of the upload service,
 * the card service and the webhook can be played against the model.
 */
module Messaging {
  import opened Wrappers
  import opened Text
  import opened Chatbot
  import opened ImageComposer
  import opened CardAddress
  import opened CardContent

  /** The placeholder picture shown while images are still being generated. */
  const ProgressMediaId: MediaId := "@lALPDeC2-ctyLH_NAgDNAgA"
  const CardTemplateId := "StandardCard"
  const MarkdownTitle := "jxm画图机器人"
  /** The status that makes the card path fall back to markdown. */
  const PermissionDenied := 403

  datatype AtUser = AtUser(nickName: string, userId: string)

  /**
   * The request bodies, with `atUserListJson` kept structured rather than JSON-encoded and
   * the card payload recorded as the arguments its `cardData` JSON is rendered from;
   * `singleChatReceiver` holds the user id that is JSON-encoded.
   */
  datatype Request =
    | SendCard(cardTemplateId: string, cardBizId: string, robotCode: string, card: CardArgs,
               atUsers: seq<AtUser>, singleChatReceiver: Option<string>, openConversationId: Option<string>)
    | UpdateCard(cardBizId: string, card: CardArgs)
    | SendMarkdown(webhook: string, title: string, text: string, atUserIds: seq<string>)

  datatype HttpResponse = HttpResponse(status: int, body: string)

  /** What `send_card` and `update_card` return: the response body, or the failing status code. */
  datatype CallResult = Body(body: string) | Status(code: int)

  datatype Event =
    | Uploaded(content: Composite, media: MediaId)
    | Called(request: Request, response: HttpResponse)

  /** Upload service, HTTP transport and SHA-256 hex digest. */
  datatype Collaborators = Collaborators(
    upload: (seq<Event>, Composite) -> MediaId,
    transport: (seq<Event>, Request) -> HttpResponse,
    digest: string -> string)

  /** `response.raise_for_status()` raises for client and server errors. */
  predicate RaisesForStatus(status: int) {
    400 <= status < 600
  }

  function CardResult(resp: HttpResponse): (r: CallResult)
    ensures r.Status? <==> RaisesForStatus(resp.status)
    ensures r.Status? ==> r.code == resp.status
    ensures r.Body? ==> r.body == resp.body
  {
    if RaisesForStatus(resp.status) then Status(resp.status) else Body(resp.body)
  }

  function MarkdownResult(resp: HttpResponse): (r: Option<string>)
    ensures r.None? <==> RaisesForStatus(resp.status)
    ensures r.Some? ==> r.value == resp.body
  {
    if RaisesForStatus(resp.status) then None else Some(resp.body)
  }

  // ----- request builders -----

  function SendCardRequest(digest: string -> string, progress: Option<string>, medias: seq<MediaId>,
                           elapsed: Millis, m: IncomingMessage): Request
  {
    SendCard(CardTemplateId, GenCardId(digest, m), m.robotCode, CardArgs(progress, medias, elapsed, m),
             [AtUser(m.senderNick, m.senderStaffId)],
             if IsPrivate(m) then Some(m.senderStaffId) else None,
             if IsPrivate(m) then None else Some(m.conversationId))
  }

  function UpdateCardRequest(digest: string -> string, progress: Option<string>, medias: seq<MediaId>,
                             elapsed: Millis, m: IncomingMessage): Request
  {
    UpdateCard(GenCardId(digest, m), CardArgs(progress, medias, elapsed, m))
  }

  function MarkdownText(m: IncomingMessage, media: MediaId, elapsed: Millis): string {
    "#### Prompt: " + Strip(m.textContent) + "\n\n" +
    "![image](" + media + ")\n\n" +
    "> cost " + FormatSeconds(elapsed) + "s\n" +
    "> \n" +
    "> Powered by Stable Diffusion\n" +
    "> \n" +
    "> via jxm\n"
  }

  function MarkdownRequest(title: string, content: string, m: IncomingMessage): Request {
    SendMarkdown(m.sessionWebhook, title, content, [m.senderStaffId])
  }

  /** Private chats name the receiving user, group chats the conversation; never both. */
  lemma SendCardRouting(digest: string -> string, progress: Option<string>, medias: seq<MediaId>,
                        elapsed: Millis, m: IncomingMessage)
    ensures var r := SendCardRequest(digest, progress, medias, elapsed, m);
      (r.singleChatReceiver.Some? <==> IsPrivate(m)) &&
      (r.openConversationId.Some? <==> !IsPrivate(m)) &&
      (r.singleChatReceiver.Some? ==> r.singleChatReceiver.value == m.senderStaffId) &&
      (r.openConversationId.Some? ==> r.openConversationId.value == m.conversationId) &&
      r.cardBizId == GenCardId(digest, m) && r.robotCode == m.robotCode &&
      r.cardTemplateId == "StandardCard" && r.atUsers == [AtUser(m.senderNick, m.senderStaffId)]
  {
  }

  // ----- the trace each operation appends -----

  function Upload(env: Collaborators, t: seq<Event>, content: Composite): Event {
    Uploaded(content, env.upload(t, content))
  }

  function Call(env: Collaborators, t: seq<Event>, req: Request): Event {
    Called(req, env.transport(t, req))
  }

  function MediaOf(e: Event): MediaId {
    if e.Uploaded? then e.media else ""
  }

  /** The media references of a run of uploads, in order. */
  function Medias(evs: seq<Event>): seq<MediaId> {
    if evs == [] then [] else Medias(evs[..|evs| - 1]) + [MediaOf(evs[|evs| - 1])]
  }

  /** `[self.upload_image(i) for i in images]`: one upload per image, in order. */
  function UploadEvents(env: Collaborators, t: seq<Event>, images: seq<Image>): seq<Event>
  {
    if images == [] then []
    else
      var before := UploadEvents(env, t, images[..|images| - 1]);
      before + [Upload(env, t + before, Single(images[|images| - 1]))]
  }

  /** One more image uploads one more PNG, after the earlier ones. */
  lemma UploadEventsStep(env: Collaborators, t: seq<Event>, images: seq<Image>, i: nat)
    requires i < |images|
    ensures var before := UploadEvents(env, t, images[..i]);
      UploadEvents(env, t, images[..i + 1]) == before + [Upload(env, t + before, Single(images[i]))] &&
      Medias(UploadEvents(env, t, images[..i + 1])) == Medias(before) + [env.upload(t + before, Single(images[i]))]
  {
    assert images[..i + 1][..i] == images[..i];
    var before := UploadEvents(env, t, images[..i]);
    var after := before + [Upload(env, t + before, Single(images[i]))];
    assert after[..|after| - 1] == before;
  }

  /** The trace and references after one more upload, from those before it. */
  lemma UploadLoopStep(env: Collaborators, t0: seq<Event>, images: seq<Image>, i: nat,
                       t: seq<Event>, medias: seq<MediaId>)
    requires i < |images|
    requires t == t0 + UploadEvents(env, t0, images[..i])
    requires medias == Medias(UploadEvents(env, t0, images[..i]))
    ensures t + [Upload(env, t, Single(images[i]))] == t0 + UploadEvents(env, t0, images[..i + 1])
    ensures medias + [env.upload(t, Single(images[i]))] == Medias(UploadEvents(env, t0, images[..i + 1]))
  {
    UploadEventsStep(env, t0, images, i);
    var before := UploadEvents(env, t0, images[..i]);
    assert t0 + (before + [Upload(env, t, Single(images[i]))]) == t + [Upload(env, t, Single(images[i]))];
  }

  function ReplyMarkdownEvents(env: Collaborators, t: seq<Event>, images: seq<Image>,
                               elapsed: Millis, m: IncomingMessage): seq<Event>
  {
    if images == [] then []
    else
      var up := Upload(env, t, MergeImages(images));
      [up, Call(env, t + [up], MarkdownRequest(MarkdownTitle, MarkdownText(m, up.media, elapsed), m))]
  }

  /** The one card update of the card path, sent after the uploads. */
  function CardUpdateEvent(env: Collaborators, t: seq<Event>, images: seq<Image>,
                           elapsed: Millis, m: IncomingMessage): Event
  {
    var ups := UploadEvents(env, t, images);
    Call(env, t + ups, UpdateCardRequest(env.digest, None, Medias(ups), elapsed, m))
  }

  /** `result == 403`: the card update was refused for lack of permission. */
  predicate Downgraded(env: Collaborators, t: seq<Event>, images: seq<Image>, elapsed: Millis, m: IncomingMessage) {
    CardResult(CardUpdateEvent(env, t, images, elapsed, m).response) == Status(PermissionDenied)
  }

  /** The uploads and the card update, the part of the card path that always happens. */
  function CardPathEvents(env: Collaborators, t: seq<Event>, images: seq<Image>,
                          elapsed: Millis, m: IncomingMessage): seq<Event>
  {
    UploadEvents(env, t, images) + [CardUpdateEvent(env, t, images, elapsed, m)]
  }

  /** The markdown reply with the original images that follows a refused update. */
  function DowngradeEvents(env: Collaborators, t: seq<Event>, images: seq<Image>,
                           elapsed: Millis, m: IncomingMessage): seq<Event>
  {
    ReplyMarkdownEvents(env, t + CardPathEvents(env, t, images, elapsed, m), images, elapsed, m)
  }

  function ReplyCardEvents(env: Collaborators, t: seq<Event>, images: seq<Image>,
                           elapsed: Millis, m: IncomingMessage): seq<Event>
  {
    CardPathEvents(env, t, images, elapsed, m) +
      if Downgraded(env, t, images, elapsed, m) then DowngradeEvents(env, t, images, elapsed, m) else []
  }

  function ReplyEvents(env: Collaborators, t: seq<Event>, kind: string, images: seq<Image>,
                       elapsed: Millis, m: IncomingMessage): seq<Event>
  {
    if images == [] then []
    else if kind == "markdown" then ReplyMarkdownEvents(env, t, images, elapsed, m)
    else ReplyCardEvents(env, t, images, elapsed, m)
  }

  /** `[PROGRESS_MEDIA_ID] * image_count`: empty for a count of zero or less. */
  function ProgressImages(count: int): (r: seq<MediaId>)
    ensures |r| == if count < 0 then 0 else count
    ensures forall i :: 0 <= i < |r| ==> r[i] == ProgressMediaId
  {
    if count <= 0 then [] else ProgressImages(count - 1) + [ProgressMediaId]
  }

  function ProgressRequest(env: Collaborators, isNew: bool, progress: Option<string>, count: int,
                           elapsed: Millis, m: IncomingMessage): Request
  {
    if isNew then SendCardRequest(env.digest, progress, ProgressImages(count), elapsed, m)
    else UpdateCardRequest(env.digest, progress, ProgressImages(count), elapsed, m)
  }

  function ReplyProgressEvents(env: Collaborators, t: seq<Event>, isNew: bool, progress: Option<string>,
                               count: int, elapsed: Millis, m: IncomingMessage): seq<Event>
  {
    [Call(env, t, ProgressRequest(env, isNew, progress, count, elapsed, m))]
  }

  // ----- what a trace shows -----

  /** Each image is uploaded once, as its own PNG, in input order; nothing else happens. */
  lemma {:induction false} UploadEventsInInputOrder(env: Collaborators, t: seq<Event>, images: seq<Image>)
    ensures var evs := UploadEvents(env, t, images);
      |evs| == |images| &&
      forall i :: 0 <= i < |images| ==> evs[i].Uploaded? && evs[i].content == Single(images[i])
    decreases |images|
  {
    if images != [] {
      var init := images[..|images| - 1];
      UploadEventsInInputOrder(env, t, init);
      var before := UploadEvents(env, t, init);
      var evs := UploadEvents(env, t, images);
      assert evs == before + [Upload(env, t + before, Single(images[|images| - 1]))];
      forall i | 0 <= i < |images| ensures evs[i].Uploaded? && evs[i].content == Single(images[i]) {
        if i < |init| {
          assert evs[i] == before[i];
        }
      }
    }
  }

  /** An empty image list produces no upload and no request, whatever the reply kind. */
  lemma EmptyReplyDoesNothing(env: Collaborators, t: seq<Event>, kind: string, elapsed: Millis, m: IncomingMessage)
    ensures ReplyEvents(env, t, kind, [], elapsed, m) == []
  {
  }

  /**
   * The markdown path: one upload of the merged images, then one post to the message's
   * webhook that mentions the sender and embeds the reference the upload returned.
   */
  lemma MarkdownReplyEffects(env: Collaborators, t: seq<Event>, images: seq<Image>, elapsed: Millis, m: IncomingMessage)
    requires images != []
    ensures var evs := ReplyMarkdownEvents(env, t, images, elapsed, m);
      |evs| == 2 &&
      evs[0].Uploaded? && evs[0].content == MergeImages(images) &&
      evs[1].Called? && evs[1].request.SendMarkdown? &&
      evs[1].request.webhook == m.sessionWebhook && evs[1].request.title == MarkdownTitle &&
      evs[1].request.atUserIds == [m.senderStaffId] &&
      evs[1].request.text == MarkdownText(m, evs[0].media, elapsed)
  {
  }

  /** `result == 403` holds exactly when the update was answered with status 403. */
  lemma DowngradedIffStatus403(env: Collaborators, t: seq<Event>, images: seq<Image>, elapsed: Millis, m: IncomingMessage)
    ensures Downgraded(env, t, images, elapsed, m) <==>
      CardUpdateEvent(env, t, images, elapsed, m).response.status == PermissionDenied
  {
  }

  /**
   * The card path: every image uploaded once, in order, as its own PNG; then one update of
   * the message's card, without a progress line, showing the returned references in upload
   * order; and, only when that update was answered 403 and there are images, the markdown
   * reply with the merged original images.
   */
  lemma CardReplyEffects(env: Collaborators, t: seq<Event>, images: seq<Image>, elapsed: Millis, m: IncomingMessage)
    ensures var evs := ReplyCardEvents(env, t, images, elapsed, m);
      var n := |images|;
      n < |evs| &&
      (forall i :: 0 <= i < n ==> evs[i].Uploaded? && evs[i].content == Single(images[i])) &&
      evs[n].Called? &&
      evs[n].request == UpdateCard(GenCardId(env.digest, m), CardArgs(None, Medias(evs[..n]), elapsed, m)) &&
      var refused := evs[n].response.status == PermissionDenied;
      |evs| == n + (if refused && images != [] then 3 else 1) &&
      (refused && images != [] ==>
        evs[n + 1].Uploaded? && evs[n + 1].content == MergeImages(images) &&
        evs[n + 2].Called? && evs[n + 2].request.SendMarkdown? &&
        evs[n + 2].request.text == MarkdownText(m, evs[n + 1].media, elapsed))
  {
    UploadEventsInInputOrder(env, t, images);
    var evs := ReplyCardEvents(env, t, images, elapsed, m);
    assert evs[..|images|] == UploadEvents(env, t, images);
  }

  /** The references of a run of uploads are the ones each upload returned, in order. */
  lemma {:induction false} MediasInOrder(evs: seq<Event>)
    ensures |Medias(evs)| == |evs|
    ensures forall i :: 0 <= i < |evs| ==> Medias(evs)[i] == MediaOf(evs[i])
  {
    if evs != [] {
      MediasInOrder(evs[..|evs| - 1]);
    }
  }

  /**
   * The card shown by the final update lists the references the uploads returned, one
   * per image and in upload order.
   */
  lemma FinalCardShowsUploads(env: Collaborators, t: seq<Event>, images: seq<Image>, elapsed: Millis, m: IncomingMessage)
    ensures var evs := ReplyCardEvents(env, t, images, elapsed, m);
      var n := |images|;
      n < |evs| && evs[n].Called? && evs[n].request.UpdateCard? &&
      var gallery := GalleryOf(Render(evs[n].request.card).contents);
      gallery.Some? && |gallery.value| == n &&
      forall i :: 0 <= i < n ==> evs[i].Uploaded? && gallery.value[i] == evs[i].media
  {
    CardReplyEffects(env, t, images, elapsed, m);
    var evs := ReplyCardEvents(env, t, images, elapsed, m);
    var n := |images|;
    CardShowsImagesInOrder(None, Medias(evs[..n]), elapsed, m);
    MediasInOrder(evs[..n]);
  }

  /**
   * `reply` takes the markdown path exactly for the kind "markdown" and the card path
   * otherwise: the first request, preceded only by uploads, is a markdown post or a card
   * update accordingly, and no reply ever creates a card.
   */
  lemma ReplyRouting(env: Collaborators, t: seq<Event>, kind: string, images: seq<Image>, elapsed: Millis, m: IncomingMessage)
    requires images != []
    ensures var evs := ReplyEvents(env, t, kind, images, elapsed, m);
      var first := if kind == "markdown" then 1 else |images|;
      first < |evs| && (forall i :: 0 <= i < first ==> evs[i].Uploaded?) &&
      evs[first].Called? &&
      (evs[first].request.SendMarkdown? <==> kind == "markdown") &&
      (evs[first].request.UpdateCard? <==> kind != "markdown") &&
      forall i :: 0 <= i < |evs| && evs[i].Called? ==> !evs[i].request.SendCard?
  {
    if kind == "markdown" {
      MarkdownReplyEffects(env, t, images, elapsed, m);
    } else {
      CardReplyEffects(env, t, images, elapsed, m);
    }
  }

  /**
   * A progress notice is one request: a card creation exactly when `isNew`, an update
   * otherwise, carrying the given progress label and elapsed time.
   */
  lemma ProgressEffects(env: Collaborators, t: seq<Event>, isNew: bool, progress: Option<string>,
                        count: int, elapsed: Millis, m: IncomingMessage)
    ensures var evs := ReplyProgressEvents(env, t, isNew, progress, count, elapsed, m);
      |evs| == 1 && evs[0].Called? &&
      (evs[0].request.SendCard? <==> isNew) && (evs[0].request.UpdateCard? <==> !isNew) &&
      evs[0].request.cardBizId == GenCardId(env.digest, m) &&
      evs[0].request.card == CardArgs(progress, ProgressImages(count), elapsed, m) &&
      GalleryOf(Render(evs[0].request.card).contents) == Some(ProgressImages(count))
  {
    CardShowsImagesInOrder(progress, ProgressImages(count), elapsed, m);
  }

  /** Every card request in a run of events addresses the card of message `m`. */
  predicate AddressesCardOf(evs: seq<Event>, digest: string -> string, m: IncomingMessage) {
    forall i :: 0 <= i < |evs| && evs[i].Called? && !evs[i].request.SendMarkdown? ==>
      evs[i].request.cardBizId == GenCardId(digest, m)
  }

  /** A progress notice for any message of the thread addresses the thread's one card. */
  lemma ProgressTargetsThreadCard(env: Collaborators, t: seq<Event>, a: IncomingMessage, b: IncomingMessage,
                                  isNew: bool, progress: Option<string>, count: int, elapsed: Millis)
    requires SameThread(a, b)
    ensures AddressesCardOf(ReplyProgressEvents(env, t, isNew, progress, count, elapsed, b), env.digest, a)
  {
    CardIdDependsOnlyOnThread(env.digest, a, b);
  }

  /**
   * The final reply to any message of the thread addresses the same card as its
   * progress notices, whatever the reply kind, images and elapsed time.
   */
  lemma ReplyTargetsThreadCard(env: Collaborators, t: seq<Event>, a: IncomingMessage, c: IncomingMessage,
                               kind: string, images: seq<Image>, elapsed: Millis)
    requires SameThread(a, c)
    ensures AddressesCardOf(ReplyEvents(env, t, kind, images, elapsed, c), env.digest, a)
  {
    CardIdDependsOnlyOnThread(env.digest, a, c);
    if images != [] && kind != "markdown" {
      CardUpdateIsOnlyCardRequest(env, t, images, elapsed, c);
    } else if images != [] {
      MarkdownReplyEffects(env, t, images, elapsed, c);
    }
  }

  /** On the card path the one card update is the only request that is not a markdown post. */
  lemma CardUpdateIsOnlyCardRequest(env: Collaborators, t: seq<Event>, images: seq<Image>, elapsed: Millis, m: IncomingMessage)
    ensures var evs := ReplyCardEvents(env, t, images, elapsed, m);
      |images| < |evs| && evs[|images|].Called? && evs[|images|].request.UpdateCard? &&
      evs[|images|].request.cardBizId == GenCardId(env.digest, m) &&
      forall i :: 0 <= i < |evs| && i != |images| && evs[i].Called? ==> evs[i].request.SendMarkdown?
  {
    CardReplyEffects(env, t, images, elapsed, m);
    var evs := ReplyCardEvents(env, t, images, elapsed, m);
    var n := |images|;
    forall i | 0 <= i < |evs| && i != n && evs[i].Called? ensures evs[i].request.SendMarkdown? {
      if i >= n {
        assert i == n + 2;
      }
    }
  }

  /**
   * Two images (what the bot generates with four-image mode on) cannot be merged:
   * the markdown path uploads empty bytes and posts a message pointing at them.
   */
  lemma TwoImageMarkdownReplyUploadsEmpty(env: Collaborators, t: seq<Event>, images: seq<Image>, elapsed: Millis, m: IncomingMessage)
    requires |images| == 2
    ensures var evs := ReplyEvents(env, t, "markdown", images, elapsed, m);
      |evs| == 2 && evs[0].Uploaded? && evs[0].content == Empty && evs[1].Called?
  {
  }

  class Messenger {
    const env: Collaborators
    var trace: seq<Event>

    constructor (env: Collaborators)
      ensures this.env == env && trace == []
    {
      this.env := env;
      trace := [];
    }

    /** `dingtalk_client.upload_to_dingtalk(content)`. */
    method UploadMedia(content: Composite) returns (media: MediaId)
      modifies this
      ensures media == env.upload(old(trace), content)
      ensures trace == old(trace) + [Uploaded(content, media)]
    {
      media := env.upload(trace, content);
      trace := trace + [Uploaded(content, media)];
    }

    /** `requests.post` / `requests.put` of one request. */
    method Send(req: Request) returns (resp: HttpResponse)
      modifies this
      ensures resp == env.transport(old(trace), req)
      ensures trace == old(trace) + [Called(req, resp)]
    {
      resp := env.transport(trace, req);
      trace := trace + [Called(req, resp)];
    }

    method Reply(kind: string, images: seq<Image>, elapsed: Millis, m: IncomingMessage)
      modifies this
      ensures trace == old(trace) + ReplyEvents(env, old(trace), kind, images, elapsed, m)
    {
      if |images| == 0 {
        return;
      }
      if kind == "markdown" {
        ReplyMarkdown(images, elapsed, m);
        return;
      }
      ReplyCard(images, elapsed, m);
    }

    method ReplyProgress(isNew: bool, progress: Option<string>, count: int, elapsed: Millis, m: IncomingMessage)
      modifies this
      ensures trace == old(trace) + ReplyProgressEvents(env, old(trace), isNew, progress, count, elapsed, m)
    {
      var images := ProgressImages(count);
      if isNew {
        var _ := SendCard(progress, images, elapsed, m);
      } else {
        var _ := UpdateCard(progress, images, elapsed, m);
      }
    }

    method ReplyMarkdown(images: seq<Image>, elapsed: Millis, m: IncomingMessage)
      modifies this
      ensures trace == old(trace) + ReplyMarkdownEvents(env, old(trace), images, elapsed, m)
    {
      if |images| == 0 {
        return;
      }
      var content := MergeImages(images);
      var media := UploadMedia(content);
      var _ := SendMarkdownMessage(MarkdownTitle, MarkdownText(m, media, elapsed), m);
    }

    /** `send_markdown`: the webhook's JSON answer, or `None` when the post failed. */
    method SendMarkdownMessage(title: string, content: string, m: IncomingMessage) returns (r: Option<string>)
      modifies this
      ensures trace == old(trace) + [Call(env, old(trace), MarkdownRequest(title, content, m))]
      ensures r == MarkdownResult(env.transport(old(trace), MarkdownRequest(title, content, m)))
    {
      var resp := Send(MarkdownRequest(title, content, m));
      r := MarkdownResult(resp);
    }

    /** `[self.upload_image(i) for i in images]`. */
    method UploadImages(images: seq<Image>) returns (medias: seq<MediaId>)
      modifies this
      ensures trace == old(trace) + UploadEvents(env, old(trace), images)
      ensures medias == Medias(UploadEvents(env, old(trace), images))
    {
      ghost var t0 := trace;
      medias := [];
      var i := 0;
      while i < |images|
        invariant 0 <= i <= |images|
        invariant trace == t0 + UploadEvents(env, t0, images[..i])
        invariant medias == Medias(UploadEvents(env, t0, images[..i]))
      {
        ghost var before := trace;
        var media := UploadImage(images[i]);
        UploadLoopStep(env, t0, images, i, before, medias);
        medias := medias + [media];
        i := i + 1;
      }
      assert images[..i] == images;
    }

    method ReplyCard(images: seq<Image>, elapsed: Millis, m: IncomingMessage)
      modifies this
      ensures trace == old(trace) + ReplyCardEvents(env, old(trace), images, elapsed, m)
    {
      ghost var t0 := trace;
      var medias := UploadImages(images);
      var result := UpdateCard(None, medias, elapsed, m);
      ghost var before := CardPathEvents(env, t0, images, elapsed, m);
      assert trace == t0 + before;
      if result == Status(PermissionDenied) {
        // downgrade to markdown
        ReplyMarkdown(images, elapsed, m);
        assert trace == t0 + (before + DowngradeEvents(env, t0, images, elapsed, m));
      } else {
        assert trace == t0 + (before + []);
      }
    }

    method SendCard(progress: Option<string>, medias: seq<MediaId>, elapsed: Millis, m: IncomingMessage)
      returns (r: CallResult)
      modifies this
      ensures trace == old(trace) + [Call(env, old(trace), SendCardRequest(env.digest, progress, medias, elapsed, m))]
      ensures r == CardResult(trace[|trace| - 1].response)
    {
      var cardId := GenCardId(env.digest, m);
      var cardData := CardArgs(progress, medias, elapsed, m);
      var values := Request.SendCard(CardTemplateId, cardId, m.robotCode, cardData,
                             [AtUser(m.senderNick, m.senderStaffId)], None, None);
      if IsPrivate(m) {
        values := values.(singleChatReceiver := Some(m.senderStaffId));
      } else {
        values := values.(openConversationId := Some(m.conversationId));
      }
      var resp := Send(values);
      r := CardResult(resp);
    }

    method UpdateCard(progress: Option<string>, medias: seq<MediaId>, elapsed: Millis, m: IncomingMessage)
      returns (r: CallResult)
      modifies this
      ensures trace == old(trace) + [Call(env, old(trace), UpdateCardRequest(env.digest, progress, medias, elapsed, m))]
      ensures r == CardResult(trace[|trace| - 1].response)
    {
      var cardId := GenCardId(env.digest, m);
      var cardData := CardArgs(progress, medias, elapsed, m);
      var resp := Send(Request.UpdateCard(cardId, cardData));
      r := CardResult(resp);
    }

    /** `upload_image`: the image as its own PNG. */
    method UploadImage(image: Image) returns (media: MediaId)
      modifies this
      ensures trace == old(trace) + [Upload(env, old(trace), Single(image))]
      ensures media == env.upload(old(trace), Single(image))
    {
      media := UploadMedia(Single(image));
    }
  }
}
