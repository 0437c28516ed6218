/**
 * The part of the webhook handler that turns the inserted record's tracks into a carousel:
 * keep the URL of every track that has a non-empty one, in order; with none, answer
 * "No tracks found" and build nothing; otherwise build the carousel and send its first embed,
 * titled after the project instead of the gallery position.
 */
module Webhook {
  import opened Wrappers
  import opened Carousel

  /** One entry of the record's `tracks` column; `url` is None when the key is absent or null. */
  datatype Track = Track(url: Option<string>)

  /** The inserted row: `title` and `tracks` are None when the key is absent. */
  datatype Record = Record(title: Option<string>, tracks: Option<seq<Track>>)

  /** An HTTP reply: body text and status code. */
  datatype Response = Response(text: string, status: nat)

  /** The message posted to the channel: the first embed and the live carousel behind its buttons. */
  datatype Message = Message(embed: Embed, view: CarouselView)

  /** Python truthiness of `t.get('url')` for a string-or-missing value. */
  predicate HasUrl(t: Track) {
    t.url.Some? && t.url.value != ""
  }

  /** The list comprehension over the tracks: the URL of each track that has one, in order. */
  function KeptUrls(tracks: seq<Track>): (urls: seq<string>)
    ensures |urls| <= |tracks|
    ensures forall i :: 0 <= i < |urls| ==> urls[i] != ""
  {
    if tracks == [] then []
    else (if HasUrl(tracks[0]) then [tracks[0].url.value] else []) + KeptUrls(tracks[1..])
  }

  /** Filtering a concatenation filters each part and keeps them in the same order. */
  lemma {:induction false} KeptUrlsAppend(a: seq<Track>, b: seq<Track>)
    ensures KeptUrls(a + b) == KeptUrls(a) + KeptUrls(b)
  {
    if a != [] {
      assert (a + b)[1..] == a[1..] + b;
      KeptUrlsAppend(a[1..], b);
    } else {
      assert a + b == b;
    }
  }

  /** A URL is kept exactly when some track carries it and it is non-empty. */
  lemma {:induction false} KeptUrlsMembers(tracks: seq<Track>, u: string)
    ensures u in KeptUrls(tracks) <==> exists t :: t in tracks && HasUrl(t) && t.url.value == u
  {
    if tracks != [] {
      KeptUrlsMembers(tracks[1..], u);
      if u in KeptUrls(tracks[1..]) {
        var t :| t in tracks[1..] && HasUrl(t) && t.url.value == u;
        assert t in tracks;
      }
      forall t | t in tracks && HasUrl(t) && t.url.value == u
        ensures u in KeptUrls(tracks)
      {
        if t != tracks[0] {
          assert t in tracks[1..];
        }
      }
    }
  }

  /** Nothing survives the filter exactly when no track has a non-empty URL. */
  lemma {:induction false} KeptUrlsEmpty(tracks: seq<Track>)
    ensures KeptUrls(tracks) == [] <==> forall t :: t in tracks ==> !HasUrl(t)
  {
    if tracks != [] {
      KeptUrlsEmpty(tracks[1..]);
      forall t | t in tracks[1..] ensures t in tracks { }
      if forall t :: t in tracks ==> !HasUrl(t) {
        assert !HasUrl(tracks[0]);
      }
    }
  }

  /** The title of the first message: "🎵 New Project: " and the record's title, "Untitled" if it has none. */
  function ProjectTitle(record: Record): string {
    "\U{1F3B5} New Project: " + record.title.GetOr("Untitled")
  }

  /**
   * The carousel step of the webhook handler, once the signature has been accepted and the
   * body decoded. `channelFound` is whether the target channel could be looked up. Returns the
   * HTTP reply and, when one is posted, the message sent to the channel.
   */
  method DeliverCarousel(record: Record, channelFound: bool) returns (resp: Response, sent: Option<Message>)
    ensures var urls := KeptUrls(record.tracks.GetOr([]));
      && (urls == [] ==> resp == Response("No tracks found", 200) && sent == None)
      && (urls != [] && !channelFound ==> resp == Response("Channel not found", 500) && sent == None)
      && (urls != [] && channelFound ==>
            resp == Response("Carousel sent", 200) && sent.Some? &&
            var view := sent.value.view;
            fresh(view) && view.Valid() && view.images == urls && view.currentIndex == 0 &&
            sent.value.embed == Embed(ProjectTitle(record), urls[0], Footer))
  {
    var urls := KeptUrls(record.tracks.GetOr([]));
    if urls == [] {
      return Response("No tracks found", 200), None;
    }
    if !channelFound {
      return Response("Channel not found", 500), None;
    }
    var view := new CarouselView(urls);
    var embed := view.GetEmbed();
    embed := embed.(title := ProjectTitle(record));
    resp, sent := Response("Carousel sent", 200), Some(Message(embed, view));
  }

  /**
   * A record with two tracks, one of them without a URL, and a walk through the carousel:
   * the later edits carry the gallery title again, not the project title.
   */
  method TwoTrackWalkthrough() {
    var record := Record(Some("Demo"), Some([Track(Some("u1")), Track(None), Track(Some("u2"))]));
    var resp, sent := DeliverCarousel(record, true);
    assert KeptUrls(record.tracks.value) == ["u1", "u2"];
    assert resp.status == 200 && sent.value.embed.image == "u1";
    var view := sent.value.view;
    assert !view.nextDisabled && view.backDisabled;
    var edit := view.Next();
    assert edit.value.image == "u2" && view.nextDisabled && !view.backDisabled;
    assert ParseGalleryTitle(edit.value.title) == Some((2, 2));
    edit := view.Next();
    assert edit == None && view.currentIndex == 1;
    edit := view.Back();
    assert edit.value.image == "u1" && view.backDisabled && !view.nextDisabled;
  }
}
