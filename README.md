# dingtalk-stable-diffusion: the reply lifecycle, in Dafny

The bot answers a DingTalk chat message by generating images with Stable Diffusion and
reporting on one interactive card per message thread:

1. `txt2img` creates the card at "0%".
2. The pipeline's progress callback updates the card after every step.
3. The finished images go out as a final card update, or as a markdown post when
   markdown was asked for or the card service refuses the update with 403.

This project models that lifecycle and proves what the code promises about it:

- which requests go out, in which order, and to which card;
- what each request carries;
- how the image count, the percentage, the prompt translation and the option defaults
  are decided.

## Modules

- `Text.dfy`:
  - `Wrappers` holds `Option`.
  - `Text` holds the Python string operations the replies use: `str.strip()`, `'%d' % n`,
    and `'%s' % round(seconds, 3)`.
- `Chatbot.dfy`: the incoming chat message, as far as the code reads it.
- `ImageComposer.dfy`: `_merge_images`.
  - An image is its size and an identity.
  - The result is empty, the single image, or the 2 x 2 grid of pasted tiles.
- `Card.dfy`:
  - `CardAddress` holds `_gen_card_id`. The SHA-256 digest is a parameter, so the string
    it is applied to is what gets modelled.
  - `CardContent` holds `get_card_data`.
- `Messenger.dfy` (`Messaging`): the `Messenger` class.
  - The upload service, the HTTP transport and the digest form a `Collaborators` value of
    functions.
  - The upload service and the transport see the trace of everything done so far.
  - The digest is a function of the hashed string alone.
  - Every method appends to `trace` and ensures
    `trace == old(trace) + XEvents(env, old(trace), ...)`.
  - Lemmas about those event functions state what a reply does.
- `DingtalkSd.dfy` (`StableDiffusion`): the rest of the model.
  - The defaulting in `define_options`.
  - `is_contain_chinese` and `translate_prompt`.
  - The `ProgressBar` class and its `callback`.
  - `StableDiffusionBot.txt2img`. The pipeline is a parameter: given the prompt, the step
    count and the image count, it returns the callbacks it makes and the images.

A card request records the arguments its `cardData` JSON is rendered from (`CardArgs`).
`CardContent.Render` turns them into the card.

Behaviour of the code that the model keeps:

- `_merge_images` returns `b''` for any count other than 1 or 4. `reply_markdown` still
  uploads those empty bytes and posts the message.
  `Messaging.TwoImageMarkdownReplyUploadsEmpty` shows this for the two images the bot
  generates in four-image mode.
- The string that `_gen_card_id` hashes joins the four fields with `_`. Fields that
  contain `_` can therefore give the same string for different threads.
  `CardAddress.CardFactorAmbiguousWithSeparators` gives an example.
- A step below zero is not clamped to 0, because the callback only decrements positive
  steps. `StableDiffusion.NegativeStepShowsNegativePercent` shows the consequence.

## Model

| member | source | states |
|---|---|---|
| Text.Strip | messenger.py:162 | the stripped prompt is the slice between the leading and trailing white space; everything cut off is white space, and the result neither starts nor ends with white space |
| Text.StripIdempotent | messenger.py:52 | stripping an already stripped prompt changes nothing |
| Text.NatToStringIsDecimal | dingtalksd.py:96 | `'%d' % n` is one or more decimal digits with no leading zero unless n is 0; it is a single digit exactly when n < 10 |
| Text.NatToStringRoundTrip | dingtalksd.py:96 | reading the digits of `'%d' % n` back gives n |
| Text.IntToStringSign | dingtalksd.py:96 | `'%d' % i` starts with a minus sign exactly when i < 0, followed by the digits of abs(i) |
| Text.DropTrailingZeros | messenger.py:171 | keeps a prefix of at least one digit, drops only zeros, and the kept prefix does not end in 0 unless it is a single digit |
| Text.ThreeDigitsValue | messenger.py:171 | the three fraction digits read back give the milliseconds |
| Text.FormatSecondsLayout | messenger.py:171 | the elapsed time reads as whole seconds, a point, then 1 to 3 fraction digits: a prefix of the zero-padded milliseconds with only zeros cut, ending in a non-zero digit unless it is a single digit |
| Text.FormatSecondsWholePart | messenger.py:54 | the text before the point is decimal and reads back as the whole seconds |
| Text.NatToString | dingtalksd.py:96 | `'%d' % n` for n >= 0; NatToStringIsDecimal and NatToStringRoundTrip state that it is canonical decimal reading back as n |
| Text.IntToString | dingtalksd.py:96 | `'%d' % i` for any int; IntToStringSign states the minus sign exactly for i < 0, followed by NatToString of -i |
| Text.FormatSeconds | messenger.py:171 | `'%s' % round(t, 3)` for t in whole milliseconds; FormatSecondsLayout and FormatSecondsWholePart state its layout and that it reads back as the time |
| ImageComposer.MergeImages | messenger.py:215-230 | empty bytes exactly when the count is neither 1 nor 4; one image serialised as it is; four images on a canvas twice the first image's width and height, pasted in input order |
| ImageComposer.GridIsRowMajor | messenger.py:224-227 | tile i is pasted at column i % 2 and row i / 2 of the first image's size |
| ImageComposer.GridPartitionsCanvas | messenger.py:221-227 | for four images of the same size, every canvas pixel lies in exactly one tile and no tile reaches outside the canvas |
| ImageComposer.LastTileFitsIffNoLargerThanFirst | messenger.py:221-227 | the bottom-right image stays inside the canvas exactly when it is no larger than the first image, because the canvas is sized from the first image only |
| CardAddress.CardIdDependsOnlyOnThread | messenger.py:208-212 | two messages with the same sender, corp, conversation and message id get the same card id, whatever the digest |
| CardAddress.CardFactorInjective | messenger.py:209 | when sender, corp and conversation ids contain no `_`, equal hashed strings mean equal addressing fields |
| CardAddress.CardFactorAmbiguousWithSeparators | messenger.py:209 | with `_` inside a field, two different threads hash the same string |
| CardAddress.CardFactor | messenger.py:209 | the `'%s_%s_%s_%s'` join of sender, corp, conversation and message id; CardFactorInjective states that it determines the four fields when the first three contain no `_`, CardFactorAmbiguousWithSeparators that it does not otherwise |
| CardAddress.GenCardId | messenger.py:208-212 | the digest of CardFactor; CardIdDependsOnlyOnThread states that the id depends on the four addressing fields alone |
| CardContent.GetCardData | messenger.py:152-199 | fixed config and header; a progress line first exactly when progress is truthy; then the prompt line, the image list with the given references and the elapsed-time footer, each with its fixed block id |
| CardContent.CardShowsImagesInOrder | messenger.py:165-169 | the card's image gallery is exactly the given references, in order |
| CardContent.CardBlockIdsDistinct | messenger.py:153-184 | no two blocks of a card share an id |
| CardContent.FinalCardReusesProgressSlots | messenger.py:154-169 | the final card has the same block ids, in the same order, as the progress card without its progress line |
| CardContent.Render | messenger.py:152-199 | a card request's `cardData` is `get_card_data` of its recorded arguments; CardShowsImagesInOrder states its gallery |
| Messaging.CardResult | messenger.py:118-126 | `send_card`/`update_card` return the status code exactly when `raise_for_status` raises (400 to 599), and the response body otherwise |
| Messaging.MarkdownResult | messenger.py:73-81 | `send_markdown` returns nothing exactly when `raise_for_status` raises, and the body otherwise |
| Messaging.SendCardRouting | messenger.py:98-115 | a new card names the receiving user in a private chat and the conversation in a group, never both; it carries the thread's card id, the robot code, the StandardCard template and an @-mention of the sender |
| Messaging.ProgressImages | messenger.py:30 | `[PROGRESS_MEDIA_ID] * image_count`: that many placeholders, none for a count of 0 or less |
| Messaging.UploadEventsInInputOrder | messenger.py:84 | each image is uploaded once, as its own PNG, in input order, and nothing else happens |
| Messaging.EmptyReplyDoesNothing | messenger.py:17-20 | an empty image list sends no upload and no request |
| Messaging.MarkdownReplyEffects | messenger.py:37-56 | the markdown reply is one upload of the merged images, then one post to the message's webhook that has the fixed title, mentions the sender and embeds the reference that upload returned |
| Messaging.DowngradedIffStatus403 | messenger.py:85-86 | the card path falls back to markdown exactly when the card update is answered 403 |
| Messaging.CardReplyEffects | messenger.py:83-88 | per-image uploads in order; then one update of the thread's card with no progress line, showing the returned references; and, exactly when that update was answered 403, the markdown reply with the merged original images |
| Messaging.FinalCardShowsUploads | messenger.py:84-85 | the final card's gallery lists the reference each upload returned, one per image, in upload order |
| Messaging.ReplyRouting | messenger.py:17-24 | the first request after the uploads is a markdown post exactly when the kind is "markdown", and a card update otherwise; a reply never creates a card |
| Messaging.ProgressEffects | messenger.py:26-34 | a progress notice is one request: a card creation exactly when is_new, an update otherwise; it goes to the thread's card and shows one placeholder per image |
| Messaging.ProgressTargetsThreadCard | messenger.py:26-34 | a progress notice for any message of the thread addresses the thread's card |
| Messaging.ReplyTargetsThreadCard | messenger.py:83-88 | every card request of the final reply addresses the same card as the thread's progress notices, whatever the kind, images and time |
| Messaging.CardUpdateIsOnlyCardRequest | messenger.py:83-88 | on the card path the update is the only request that is not a markdown post |
| Messaging.TwoImageMarkdownReplyUploadsEmpty | messenger.py:41-42 | a markdown reply with two images uploads empty bytes and still posts |
| Messaging.Messenger.constructor | messenger.py:13-15 | a new messenger has done nothing yet |
| Messaging.Messenger.UploadMedia | messenger.py:204-205 | the upload service's reference is returned, and the upload is appended to the trace |
| Messaging.Messenger.Send | messenger.py:119-122 | one request is sent; its response is returned and recorded |
| Messaging.Messenger.Reply | messenger.py:17-24 | appends exactly the events of `reply`, whose properties the lemmas above state |
| Messaging.Messenger.ReplyProgress | messenger.py:26-34 | appends exactly one progress request |
| Messaging.Messenger.ReplyMarkdown | messenger.py:37-56 | appends the merged upload and the markdown post, or nothing for no images |
| Messaging.Messenger.SendMarkdownMessage | messenger.py:58-81 | posts to the message's webhook and returns the result described by MarkdownResult |
| Messaging.Messenger.UploadImages | messenger.py:84 | uploads every image in order and returns the references in that order |
| Messaging.Messenger.ReplyCard | messenger.py:83-88 | appends the uploads, the card update and, after a 403, the markdown fallback |
| Messaging.Messenger.SendCard | messenger.py:90-126 | sends the request described by SendCardRouting and returns CardResult of its response |
| Messaging.Messenger.UpdateCard | messenger.py:128-149 | sends one update of the thread's card and returns CardResult of its response |
| Messaging.Messenger.UploadImage | messenger.py:201-205 | uploads the one image as its own PNG and returns the reference |
| Messaging.SendCardRequest | messenger.py:98-115 | the `send_card` request body; SendCardRouting states its routing, card id, robot code, template and @-mention |
| Messaging.UpdateCardRequest | messenger.py:136-139 | the `update_card` request body: the thread's card id and the card arguments; ProgressEffects and CardReplyEffects state what it carries |
| Messaging.MarkdownText | messenger.py:44-55 | the markdown reply text with the stripped prompt, the upload's reference and the elapsed time; MarkdownReplyEffects states that the post carries it with the returned reference |
| Messaging.MarkdownRequest | messenger.py:63-76 | the `send_markdown` post to the message's session webhook, @-mentioning the sender; MarkdownReplyEffects states its use |
| Messaging.ProgressRequest | messenger.py:30-34 | a creation when `is_new`, an update otherwise, with one placeholder per image; ProgressEffects states it |
| Messaging.UploadEvents | messenger.py:84 | the uploads of `[self.upload_image(i) for i in images]`; UploadEventsInInputOrder states one PNG per image in order |
| Messaging.ReplyProgressEvents | messenger.py:26-34 | the events of `reply_progress`; ProgressEffects and ProgressTargetsThreadCard state them |
| Messaging.ReplyMarkdownEvents | messenger.py:37-56 | the events of `reply_markdown`; EmptyReplyDoesNothing, MarkdownReplyEffects and TwoImageMarkdownReplyUploadsEmpty state them |
| Messaging.ReplyCardEvents | messenger.py:83-88 | the events of `reply_card`; CardReplyEffects, DowngradedIffStatus403, FinalCardShowsUploads and CardUpdateIsOnlyCardRequest state them |
| Messaging.ReplyEvents | messenger.py:17-24 | the events of `reply`; EmptyReplyDoesNothing, ReplyRouting and ReplyTargetsThreadCard state them |
| StableDiffusion.ApplyDefaults | dingtalksd.py:44-53 | values given on the command line are kept; a missing device becomes "cuda" on Colab, else "mps" on macOS, else stays missing; a missing subprocess flag becomes False on Colab, else True on macOS, else stays missing; other options are untouched |
| StableDiffusion.ApplyDefaultsIdempotent | dingtalksd.py:44-53 | defaulting twice gives the same options as defaulting once |
| StableDiffusion.ContainsChineseIffSomeChineseChar | dingtalksd.py:66-74 | the pattern matches exactly when some character lies in U+4E00..U+9FA5 |
| StableDiffusion.PromptWithoutChineseIsKept | dingtalksd.py:204-207 | a prompt with no such character goes to the pipeline unchanged |
| StableDiffusion.PromptWithChineseIsTranslated | dingtalksd.py:204-207 | a prompt with one such character anywhere is replaced by the translation service's answer |
| StableDiffusion.TruncDivBounds | dingtalksd.py:96 | `int(a / b)` rounds toward zero: the floor for a >= 0, the ceiling for a < 0 |
| StableDiffusion.PercentInRange | dingtalksd.py:91-96 | for steps 0 to num, the shown percentage is 0 to 99, never 100, and is the largest whole percentage not above the share of the decremented step |
| StableDiffusion.PercentMonotonic | dingtalksd.py:93-96 | a later step never shows a smaller percentage |
| StableDiffusion.FirstStepsShowZero | dingtalksd.py:93-96 | steps 0 and 1 both show "0%", the label `txt2img` starts with |
| StableDiffusion.NegativeStepShowsNegativePercent | dingtalksd.py:91-96 | a negative step is not clamped, and from -num/100 down it shows a negative percentage with a minus sign |
| StableDiffusion.CallbackEffects | dingtalksd.py:90-98 | the callback sends nothing when there are no steps or the step is past the last; otherwise it sends one update, never a creation, of the thread's card with its percentage and the bar's placeholder count |
| StableDiffusion.ProgressBar.constructor | dingtalksd.py:78-88 | the bar keeps the step count, the image count, the messenger and the message it was given |
| StableDiffusion.ProgressBar.Callback | dingtalksd.py:90-98 | appends exactly the events described in CallbackEffects |
| StableDiffusion.ProgressBar.ReceiveCallbacks | dingtalksd.py:178-181 | the pipeline's callbacks, in order, append their notices in that order |
| StableDiffusion.TicksOnlyUpdate | dingtalksd.py:90-98 | a run of callbacks sends one notice per reported step, each an update of the thread's card with the bar's placeholders and message |
| StableDiffusion.Txt2ImgNotifications | dingtalksd.py:167-181 | `txt2img` first creates the thread's card at "0%" with one placeholder per requested image, then only updates that same card, once per reported step |
| StableDiffusion.StableDiffusionBot.constructor | dingtalksd.py:102-115 | four-image mode is on |
| StableDiffusion.StableDiffusionBot.Txt2Img | dingtalksd.py:167-185 | requests 2 images in four-image mode and 1 otherwise, from the stripped prompt, translated when Chinese, over 50 steps; appends the notices described in Txt2ImgNotifications; returns nothing exactly when the pipeline returned fewer images than requested, and those images otherwise |
| StableDiffusion.ContainsChinese | dingtalksd.py:66-74 | `is_contain_chinese`; ContainsChineseIffSomeChineseChar states that it holds exactly when some character lies in U+4E00..U+9FA5 |
| StableDiffusion.TranslatePrompt | dingtalksd.py:204-207 | `translate_prompt`; PromptWithoutChineseIsKept and PromptWithChineseIsTranslated state both branches |
| StableDiffusion.TruncDiv | dingtalksd.py:96 | Python's `int(a / b)` for b > 0; TruncDivBounds states that it rounds toward zero |
| StableDiffusion.EffectiveStep | dingtalksd.py:93-94 | the step less one when positive, unchanged otherwise; PercentInRange, FirstStepsShowZero and NegativeStepShowsNegativePercent state its effect on the label |
| StableDiffusion.CallbackPercent | dingtalksd.py:91-96 | no notice exactly when there are no steps or the step is past the last; PercentInRange, PercentMonotonic and FirstStepsShowZero state the percentage otherwise |
| StableDiffusion.ProgressLabel | dingtalksd.py:96 | `'%d%%' % p`; FirstStepsShowZero and NegativeStepShowsNegativePercent state the labels it gives |
| StableDiffusion.TickEvents | dingtalksd.py:90-98 | the events of one `callback`; CallbackEffects states them |
| StableDiffusion.TicksEvents | dingtalksd.py:178-181 | the events of the pipeline's callbacks, in order; TicksOnlyUpdate states them |
| StableDiffusion.ImageCount | dingtalksd.py:168-170 | 2 images in four-image mode, 1 otherwise; Txt2Img's ensures passes it to the pipeline, the first notice and the bar |
| StableDiffusion.Txt2ImgEvents | dingtalksd.py:171-181 | the notices of `txt2img`; Txt2ImgNotifications states them |

## Left out

- Exceptions: the model covers only status-code failures.
  - The transport always answers. Connection errors are not modelled, and neither is the
    exception handler of `send_card`/`update_card`, which reads `response` even when the
    post itself raised.
  - Exceptions from the pipeline, caught by `process_incoming_message`, are not modelled.
- Access tokens, headers and URLs are not modelled. The remote endpoint is implied by the
  request kind.
- JSON encoding is not modelled.
  - A card request records the arguments of `get_card_data` rather than the serialised
    `cardData`.
  - `atUserListJson` and `singleChatReceiver` are kept structured.
- Messaging.DowngradedIffStatus403: only a 403 status triggers the fallback. In the code,
  a successful JSON body that decodes to the number 403 would trigger it too.
- SHA-256 is not modelled. It is a parameter of the collaborators, and only the string it
  is applied to is modelled.
- Pixels, PNG encoding and `Image.paste` are not modelled. An image is its size and an
  identity.
- Floating-point time is not modelled.
  - Elapsed time is whole milliseconds, that is `round(seconds, 3)`.
  - Python's exponent notation for very large or very small floats is not modelled.
  - The clock (`time.time()`) is not modelled: `txt2img` and each callback receive the
    elapsed time, and `ProgressBar` does not keep `begin_time`.
- StableDiffusion.CallbackPercent: `step*100/num` is divided exactly, not in binary
  floating point. Both agree for the step counts the bot uses.
- Logging is not modelled.
- The ignored `timestep` and `latents` arguments of `callback` are not modelled.
- The diffusers pipeline, torch, `create_pipe` and the use of the device are not
  modelled. The pipeline is a parameter.
- The translation service is not modelled. It is a string function held by the bot.
- Argument parsing is not modelled; only the defaulting applied after it is.
- Process and framework plumbing is not modelled: `pre_start`, `start_sd_process`,
  `do_sd_process`, `process`, `process_incoming_message`, `process_complete`,
  `setup_logger`, `main`, and the multiprocessing queue `_task_queue`. The bot's messenger is fixed when it is
  constructed.
