/**
 * The image carousel of the webhook bot: a fixed list of image URLs, the index of the
 * one on show, and the Back and Next buttons whose `disabled` flags follow the index.
 * Each accepted press moves the index by one and re-renders the message embed.
 */
module Carousel {
  import opened Wrappers
  import opened Decimal

  /** The parts of a message embed the carousel sets (the colour is a constant and left out). */
  datatype Embed = Embed(title: string, image: string, footer: string)

  const Footer := "Use buttons to navigate"
  const GalleryPrefix := "Image Gallery ("

  /** "Image Gallery (<position>/<total>)", the position counted from 1. */
  function GalleryTitle(index: nat, count: nat): string {
    GalleryPrefix + Show(index + 1) + "/" + Show(count) + ")"
  }

  /** The first index of `c` in `s`, if any. */
  function Find(s: string, c: char): (k: Option<nat>)
    ensures k.None? ==> c !in s
    ensures k.Some? ==> k.value < |s| && s[k.value] == c && c !in s[..k.value]
  {
    if s == [] then None
    else if s[0] == c then Some(0)
    else match Find(s[1..], c)
      case None => None
      case Some(j) => Some(j + 1)
  }

  /** Reads (position, total) back out of a gallery title; None for any other text. */
  function ParseGalleryTitle(t: string): Option<(nat, nat)> {
    var p := |GalleryPrefix|;
    if |t| < p + 1 || t[..p] != GalleryPrefix || t[|t| - 1] != ')' then None
    else
      var body := t[p..|t| - 1];
      match Find(body, '/')
      case None => None
      case Some(k) =>
        var a, b := body[..k], body[k + 1..];
        if a != [] && b != [] && AllDigits(a) && AllDigits(b) then Some((Parse(a), Parse(b)))
        else None
  }

  lemma FindAfterDigits(a: string, b: string)
    requires AllDigits(a)
    ensures Find(a + "/" + b, '/') == Some(|a|)
  {
    var s := a + "/" + b;
    assert s[|a|] == '/';
    assert forall i :: 0 <= i < |a| ==> s[i] == a[i];
  }

  /** The title shows the 1-based position and the total, and both can be read back from it. */
  lemma GalleryTitleRoundTrip(index: nat, count: nat)
    ensures ParseGalleryTitle(GalleryTitle(index, count)) == Some((index + 1, count))
  {
    var a, b := Show(index + 1), Show(count);
    var t := GalleryTitle(index, count);
    var p := |GalleryPrefix|;
    assert t == GalleryPrefix + (a + "/" + b) + ")";
    assert t[..p] == GalleryPrefix;
    assert t[p..|t| - 1] == a + "/" + b;
    FindAfterDigits(a, b);
    var body := a + "/" + b;
    assert body[..|a|] == a;
    assert body[|a| + 1..] == b;
    ParseShow(index + 1);
    ParseShow(count);
  }

  /**
   * The carousel view: `images` is never changed after construction; `currentIndex` and the
   * two button flags are the state the presses update.
   */
  class CarouselView {
    var images: seq<string>
    var currentIndex: int
    var backDisabled: bool
    var nextDisabled: bool

    /** The index is on an image and each button is disabled exactly at its own end. */
    ghost predicate Valid()
      reads this
    {
      0 <= currentIndex < |images| &&
      backDisabled == (currentIndex == 0) &&
      nextDisabled == (currentIndex == |images| - 1)
    }

    /** Starts on the first image; Back is disabled, Next only when there is one image. */
    constructor (images: seq<string>)
      requires |images| > 0
      ensures Valid()
      ensures this.images == images && currentIndex == 0
      ensures backDisabled && nextDisabled == (|images| == 1)
    {
      this.images := images;
      currentIndex := 0;
      new;
      UpdateButtonState();
    }

    /** Recomputes both flags from the index and touches nothing else. */
    method UpdateButtonState()
      modifies this`backDisabled, this`nextDisabled
      ensures backDisabled == (currentIndex == 0)
      ensures nextDisabled == (currentIndex == |images| - 1)
    {
      backDisabled := currentIndex == 0;
      nextDisabled := currentIndex == |images| - 1;
    }

    /**
     * The embed for the image on show: it carries that image, the constant footer, and a
     * title from which the 1-based position and the number of images can be read back.
     */
    function GetEmbed(): (e: Embed)
      reads this
      requires Valid()
      ensures e.image == images[currentIndex] && e.footer == Footer
      ensures ParseGalleryTitle(e.title) == Some((currentIndex + 1, |images|))
    {
      GalleryTitleRoundTrip(currentIndex, |images|);
      Embed(GalleryTitle(currentIndex, |images|), images[currentIndex], Footer)
    }

    /**
     * The Back button. Away from the first image it steps back by one, recomputes the flags
     * and returns the embed the message is edited to; on the first image it changes nothing
     * and sends no edit.
     */
    method Back() returns (edit: Option<Embed>)
      requires Valid()
      modifies this
      ensures Valid() && images == old(images)
      ensures old(currentIndex) > 0 ==> currentIndex == old(currentIndex) - 1 && edit == Some(GetEmbed())
      ensures old(currentIndex) == 0 ==> unchanged(this) && edit == None
    {
      edit := None;
      if currentIndex > 0 {
        currentIndex := currentIndex - 1;
        UpdateButtonState();
        edit := Some(GetEmbed());
      }
    }

    /**
     * The Next button. Before the last image it steps forward by one, recomputes the flags
     * and returns the embed the message is edited to; on the last image it changes nothing
     * and sends no edit, so the carousel never wraps round to the first image.
     */
    method Next() returns (edit: Option<Embed>)
      requires Valid()
      modifies this
      ensures Valid() && images == old(images)
      ensures old(currentIndex) < |images| - 1 ==> currentIndex == old(currentIndex) + 1 && edit == Some(GetEmbed())
      ensures old(currentIndex) == |images| - 1 ==> unchanged(this) && edit == None
    {
      edit := None;
      if currentIndex < |images| - 1 {
        currentIndex := currentIndex + 1;
        UpdateButtonState();
        edit := Some(GetEmbed());
      }
    }
  }

  /** Two views over the same images render the same embed exactly when they show the same index. */
  lemma EmbedIdentifiesPosition(v: CarouselView, w: CarouselView)
    requires v.Valid() && w.Valid() && v.images == w.images
    ensures v.GetEmbed() == w.GetEmbed() <==> v.currentIndex == w.currentIndex
  {
  }

  /** Next then Back, from any image before the last, restores the whole view. */
  method NextThenBack(v: CarouselView) returns (first: Option<Embed>, second: Option<Embed>)
    requires v.Valid() && v.currentIndex < |v.images| - 1
    modifies v
    ensures v.Valid() && v.images == old(v.images) && v.currentIndex == old(v.currentIndex)
    ensures v.backDisabled == old(v.backDisabled) && v.nextDisabled == old(v.nextDisabled)
    ensures first.Some? && second.Some? && second.value == v.GetEmbed()
  {
    first := v.Next();
    second := v.Back();
  }

  /** Back then Next, from any image after the first, restores the whole view. */
  method BackThenNext(v: CarouselView) returns (first: Option<Embed>, second: Option<Embed>)
    requires v.Valid() && v.currentIndex > 0
    modifies v
    ensures v.Valid() && v.images == old(v.images) && v.currentIndex == old(v.currentIndex)
    ensures v.backDisabled == old(v.backDisabled) && v.nextDisabled == old(v.nextDisabled)
    ensures first.Some? && second.Some? && second.value == v.GetEmbed()
  {
    first := v.Back();
    second := v.Next();
  }
}
