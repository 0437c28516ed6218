# Song Tailor webhook bot: the track carousel

When a new project request is inserted into the database, the bot receives a webhook and,
if the request carries track links, posts a message whose embed shows one track image at a
time with two buttons, "◀ Back" and "Next ▶". This project models that carousel
(`CarouselView` in `bot.py`) and the step of the webhook handler that filters the tracks and
builds the carousel from them, and proves its contracts with Dafny.

- `wrappers.dfy`: module `Wrappers`, an `Option` type for absent JSON keys and replies that are not sent.
- `decimal.dfy`: module `Decimal`, the base-10 numerals that Python's f-string prints for the
  gallery position, with a parser and the round-trip lemma.
- `carousel.dfy`: module `Carousel`. `CarouselView` is a class with the fields `images`,
  `currentIndex`, `backDisabled` and `nextDisabled`. `Valid()` is its invariant: the index is
  on an image, and each flag is set exactly at its own end. `Back` and `Next` are guarded
  steps of one. Each returns the embed the message is edited to, or `None` when the guard
  refuses and nothing is sent. `GetEmbed` renders the current state. `ParseGalleryTitle` reads
  the position and total back out of a title.
- `webhook.dfy`: module `Webhook`. `KeptUrls` is the list comprehension over the tracks.
  `DeliverCarousel` is the handler's branch on the filtered list and on the channel lookup.

The constructor requires a non-empty image list. The only caller returns
"No tracks found" before building a carousel from an empty list (`bot.py:136-138`). With an
empty list, `get_embed` would fail when indexing the images. A "no items" rendering for the
empty case is sometimes described for this bot, but the code has none and never needs one, so
the model follows the code.

## Model

| member | source | states |
|---|---|---|
| Carousel.CarouselView.constructor | bot.py:34-38 | the view holds the given images, starts at index 0 with Back disabled, and Next is disabled exactly when there is one image; the invariant holds |
| Carousel.CarouselView.UpdateButtonState | bot.py:40-43 | Back is disabled exactly at index 0 and Next exactly at the last index; nothing else changes |
| Carousel.CarouselView.GetEmbed | bot.py:45-53 | the embed shows `images[currentIndex]` and the constant footer, and its title reads back as (index + 1, number of images); it is a function of the state alone |
| Carousel.CarouselView.Back | bot.py:56-60 | above index 0, the index drops by exactly one and the edit carries the new embed; at index 0 the view is unchanged and no edit is sent; the images never change and the invariant is kept |
| Carousel.CarouselView.Next | bot.py:63-67 | below the last index, the index rises by exactly one and the edit carries the new embed; at the last index the view is unchanged and no edit is sent, so there is no wrap to 0; the images never change and the invariant is kept |
| Carousel.NextThenBack | bot.py:56-67 | from any index before the last, Next then Back restores the index, the images and both flags, and both presses send an edit |
| Carousel.BackThenNext | bot.py:56-67 | from any index after the first, Back then Next restores the index, the images and both flags, and both presses send an edit |
| Carousel.EmbedIdentifiesPosition | bot.py:45-53 | two valid views over the same images render equal embeds exactly when their indices are equal |
| Carousel.GalleryTitleRoundTrip | bot.py:48 | the title "Image Gallery (i+1/n)" can be parsed back to exactly (i+1, n) |
| Decimal.Show | bot.py:48 | the numeral Python prints for a non-negative int is non-empty, all digits, and has no leading zero |
| Decimal.ParseShow | bot.py:48 | reading a printed numeral back gives the number that was printed |
| Webhook.KeptUrls | bot.py:134 | every kept URL is non-empty, and no more URLs are kept than there are tracks |
| Webhook.KeptUrlsAppend | bot.py:134 | filtering a concatenation is the concatenation of the filtered parts, so the original order is kept |
| Webhook.KeptUrlsMembers | bot.py:134 | a URL is kept exactly when some track carries it as a non-empty string |
| Webhook.KeptUrlsEmpty | bot.py:134-138 | the filter yields nothing exactly when no track has a non-empty URL |
| Webhook.DeliverCarousel | bot.py:133-150 | with no URLs, the reply is "No tracks found" with status 200 and nothing is built; with URLs but no channel, the reply is "Channel not found" with status 500; otherwise a fresh carousel over exactly the kept URLs starts at index 0, the first embed shows the first URL under the project title ("Untitled" when the record has none), and the reply is "Carousel sent" with status 200 |

## Left out

- Signature verification (`bot.py:71-90`): it is HMAC-SHA256 over the body with a constant-time comparison. The digest is library code. The handler's 401 reply (`bot.py:124-126`) is not part of this model.
- The aiohttp server, `setup_hook`, `close`, `on_ready`, environment loading, logging and the startup check (`bot.py:13-22`, `94-116`, `156-162`): these are process and network plumbing.
- JSON decoding (`bot.py:129-130`): a record arrives already decoded. A track's `url` is modelled as an optional string. Other JSON values (numbers, booleans, lists) and their Python truthiness are not modelled. A JSON `null` title would print as "None"; the model treats only an absent key as "Untitled".
- Exceptions inside the handler, which become "Internal Error" with status 500 (`bot.py:152-154`). An example is a track that is not an object. The model covers only the branches that return normally.
- The Discord client: `get_channel` becomes the boolean `channelFound`, and `channel.send` and `edit_message` become the returned message and edit. The embed colour, the button labels, styles and decorators, and the view timeout are not modelled.
- Concurrent presses on the same message and suspension at `await`: presses are modelled as sequential method calls.
- Carousel state exists only in memory and is lost on restart. The model has no persistence either.
