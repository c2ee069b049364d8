/**
 * `Messenger._gen_card_id`: the card business id is the SHA-256 hex digest of
 * `sender_id _ sender_corp_id _ conversation_id _ message_id`. The digest itself is a
 * parameter (an arbitrary function on strings); what is modelled is what it is applied to.
 */
module CardAddress {
  import opened Chatbot

  const Separator: char := '_'

  /** The string that is hashed: `'%s_%s_%s_%s' % (...)`. */
  function CardFactor(m: IncomingMessage): string {
    m.senderId + [Separator] + m.senderCorpId + [Separator] + m.conversationId + [Separator] + m.messageId
  }

  function GenCardId(digest: string -> string, m: IncomingMessage): string {
    digest(CardFactor(m))
  }

  /** Two messages describe the same reply thread when the four addressing fields agree. */
  predicate SameThread(a: IncomingMessage, b: IncomingMessage) {
    a.senderId == b.senderId && a.senderCorpId == b.senderCorpId &&
    a.conversationId == b.conversationId && a.messageId == b.messageId
  }

  /** The id depends on the four addressing fields only, whatever the digest. */
  lemma CardIdDependsOnlyOnThread(digest: string -> string, a: IncomingMessage, b: IncomingMessage)
    requires SameThread(a, b)
    ensures GenCardId(digest, a) == GenCardId(digest, b)
  {
  }

  /** Position of the first `c` in `s`, or `|s|` when there is none. */
  function IndexOf(s: string, c: char): (k: nat)
    ensures k <= |s| && c !in s[..k] && (k < |s| ==> s[k] == c)
  {
    if s == [] then 0
    else if s[0] == c then 0
    else
      var k := 1 + IndexOf(s[1..], c);
      assert s[..k] == [s[0]] + s[1..][..k - 1];
      k
  }

  lemma {:induction false} IndexOfSeparatorAfterField(x: string, rest: string)
    requires Separator !in x
    ensures IndexOf(x + [Separator] + rest, Separator) == |x|
  {
    if x != [] {
      assert (x + [Separator] + rest)[1..] == x[1..] + [Separator] + rest;
      IndexOfSeparatorAfterField(x[1..], rest);
    }
  }

  /** Cutting at the first separator recovers both halves. */
  lemma SplitAtSeparator(x: string, rest: string, y: string, rest': string)
    requires Separator !in x && Separator !in y
    requires x + [Separator] + rest == y + [Separator] + rest'
    ensures x == y && rest == rest'
  {
    var s := x + [Separator] + rest;
    IndexOfSeparatorAfterField(x, rest);
    IndexOfSeparatorAfterField(y, rest');
    assert x == s[..|x|] == y;
    assert rest == s[|x| + 1..] == rest';
  }

  /**
   * When the sender, corp and conversation ids hold no separator, the factor string
   * determines the four fields, so distinct threads hash distinct strings.
   */
  lemma CardFactorInjective(a: IncomingMessage, b: IncomingMessage)
    requires Separator !in a.senderId && Separator !in a.senderCorpId && Separator !in a.conversationId
    requires Separator !in b.senderId && Separator !in b.senderCorpId && Separator !in b.conversationId
    requires CardFactor(a) == CardFactor(b)
    ensures SameThread(a, b)
  {
    var ta := a.senderCorpId + [Separator] + a.conversationId + [Separator] + a.messageId;
    var tb := b.senderCorpId + [Separator] + b.conversationId + [Separator] + b.messageId;
    assert CardFactor(a) == a.senderId + [Separator] + ta;
    assert CardFactor(b) == b.senderId + [Separator] + tb;
    SplitAtSeparator(a.senderId, ta, b.senderId, tb);
    var ua := a.conversationId + [Separator] + a.messageId;
    var ub := b.conversationId + [Separator] + b.messageId;
    assert ta == a.senderCorpId + [Separator] + ua;
    assert tb == b.senderCorpId + [Separator] + ub;
    SplitAtSeparator(a.senderCorpId, ua, b.senderCorpId, ub);
    SplitAtSeparator(a.conversationId, a.messageId, b.conversationId, b.messageId);
  }

  /**
   * Without that condition the factor is ambiguous: sender `a_b` in corp `c` and
   * sender `a` in corp `b_c` hash the same string.
   */
  lemma CardFactorAmbiguousWithSeparators(m: IncomingMessage)
    ensures var a := m.(senderId := "a_b", senderCorpId := "c");
      var b := m.(senderId := "a", senderCorpId := "b_c");
      !SameThread(a, b) && CardFactor(a) == CardFactor(b)
  {
    var a := m.(senderId := "a_b", senderCorpId := "c");
    var b := m.(senderId := "a", senderCorpId := "b_c");
    assert a.senderId != b.senderId;
    assert CardFactor(a) == "a_b_c_" + m.conversationId + "_" + m.messageId;
    assert CardFactor(b) == "a_b_c_" + m.conversationId + "_" + m.messageId;
  }
}

/**
 * `Messenger.get_card_data`: the StandardCard payload, an ordered list of tagged blocks
 * with fixed block ids under a fixed header and config.
 */
module CardContent {
  import opened Wrappers
  import opened Text
  import opened Chatbot

  datatype Block =
    | TextBlock(text: string, id: string)
    | ImageListBlock(images: seq<MediaId>, id: string)
    | MarkdownBlock(text: string, id: string)

  datatype Config = Config(autoLayout: bool, enableForward: bool)
  datatype Header = Header(titleType: string, titleText: string, logo: string)
  datatype CardData = CardData(config: Config, header: Header, contents: seq<Block>)

  const ProgressBlockId := "text_1685500462094"
  const PromptBlockId := "text_1685432118811"
  const ImageListBlockId := "imageList_1685500414369"
  const FooterBlockId := "markdown_1685516479734"

  const CardHeader := Header("text", "Stable Diffusion Bot", "@lALPDtXaA1csu9g4MA")
  const CardConfig := Config(true, true)

  const PoweredBy := "> Powered by [https://github.com/chzealot/dingtalk-stable-diffusion](https://github.com/chzealot/dingtalk-stable-diffusion)"

  /** Python truthiness of the `progress` argument: neither `None` nor the empty string. */
  predicate IsTruthy(progress: Option<string>) {
    progress.Some? && progress.value != ""
  }

  function ProgressText(tag: string): string {
    "处理中，进度 " + tag + " ..."
  }

  function PromptText(m: IncomingMessage): string {
    "Prompt: " + Strip(m.textContent)
  }

  /** The two footer lines joined by a newline. */
  function FooterText(elapsed: Millis): string {
    "> Elapse " + FormatSeconds(elapsed) + "s" + "\n" + PoweredBy
  }

  function GetCardData(progress: Option<string>, images: seq<MediaId>, elapsed: Millis, m: IncomingMessage): (r: CardData)
    ensures r.config == Config(true, true) && r.header == CardHeader
    ensures |r.contents| == if IsTruthy(progress) then 4 else 3
    ensures IsTruthy(progress) ==> r.contents[0] == TextBlock(ProgressText(progress.value), ProgressBlockId)
    ensures var k := |r.contents| - 3;
      r.contents[k] == TextBlock(PromptText(m), PromptBlockId) &&
      r.contents[k + 1] == ImageListBlock(images, ImageListBlockId) &&
      r.contents[k + 2] == MarkdownBlock(FooterText(elapsed), FooterBlockId)
  {
    var body := [TextBlock(PromptText(m), PromptBlockId),
                 ImageListBlock(images, ImageListBlockId),
                 MarkdownBlock(FooterText(elapsed), FooterBlockId)];
    if IsTruthy(progress) then
      CardData(CardConfig, CardHeader, [TextBlock(ProgressText(progress.value), ProgressBlockId)] + body)
    else
      CardData(CardConfig, CardHeader, body)
  }

  /**
   * The arguments a card payload is rendered from. A card request records them; the JSON
   * it carries is their rendering.
   */
  datatype CardArgs = CardArgs(progress: Option<string>, images: seq<MediaId>, elapsed: Millis, msg: IncomingMessage)

  function Render(a: CardArgs): CardData {
    GetCardData(a.progress, a.images, a.elapsed, a.msg)
  }

  function BlockId(b: Block): string {
    match b
    case TextBlock(_, id) => id
    case ImageListBlock(_, id) => id
    case MarkdownBlock(_, id) => id
  }

  function BlockIds(blocks: seq<Block>): (ids: seq<string>)
    ensures |ids| == |blocks| && forall i :: 0 <= i < |blocks| ==> ids[i] == BlockId(blocks[i])
  {
    if blocks == [] then [] else [BlockId(blocks[0])] + BlockIds(blocks[1..])
  }

  /** The image gallery among some blocks: the list of the first image-list block. */
  function GalleryOf(blocks: seq<Block>): (images: Option<seq<MediaId>>)
    ensures images.Some? <==> exists i :: 0 <= i < |blocks| && blocks[i].ImageListBlock?
  {
    if blocks == [] then None
    else if blocks[0].ImageListBlock? then Some(blocks[0].images)
    else
      var rest := GalleryOf(blocks[1..]);
      assert forall i :: 1 <= i < |blocks| ==> blocks[i] == blocks[1..][i - 1];
      rest
  }

  /** The gallery shows the given references unchanged and in order. */
  lemma CardShowsImagesInOrder(progress: Option<string>, images: seq<MediaId>, elapsed: Millis, m: IncomingMessage)
    ensures GalleryOf(GetCardData(progress, images, elapsed, m).contents) == Some(images)
  {
    var c := GetCardData(progress, images, elapsed, m).contents;
    var k := |c| - 3;
    assert c[k..][1..] == c[k + 1..];
    assert GalleryOf(c[k + 1..]) == Some(images);
    assert GalleryOf(c[k..]) == Some(images);
    if k == 1 {
      assert c[1..] == c[k..];
    }
  }

  /** No two blocks of a card share an id. */
  lemma CardBlockIdsDistinct(progress: Option<string>, images: seq<MediaId>, elapsed: Millis, m: IncomingMessage)
    ensures var ids := BlockIds(GetCardData(progress, images, elapsed, m).contents);
      forall i, j :: 0 <= i < j < |ids| ==> ids[i] != ids[j]
  {
    var c := GetCardData(progress, images, elapsed, m).contents;
    var ids := BlockIds(c);
    var k := |c| - 3;
    assert ids[k] == PromptBlockId && ids[k + 1] == ImageListBlockId && ids[k + 2] == FooterBlockId;
  }

  /**
   * A final card (no progress) fills the same slots, in the same order, as the progress
   * card it replaces, minus the progress line.
   */
  lemma FinalCardReusesProgressSlots(tag: string, before: seq<MediaId>, after: seq<MediaId>,
                                     t0: Millis, t1: Millis, m: IncomingMessage)
    requires tag != ""
    ensures BlockIds(GetCardData(None, after, t1, m).contents)
         == BlockIds(GetCardData(Some(tag), before, t0, m).contents)[1..]
  {
    var p := BlockIds(GetCardData(Some(tag), before, t0, m).contents);
    var f := BlockIds(GetCardData(None, after, t1, m).contents);
    assert |f| == |p[1..]|;
    forall i | 0 <= i < |f| ensures f[i] == p[1..][i] {}
  }
}
