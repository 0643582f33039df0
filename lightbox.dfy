/**
 The image lightbox of a photo work: a current image index and an open flag,
 changed by the thumbnail clicks (`openLightbox`), the close control and
 Escape (`closeLightbox`), and the arrows and arrow keys
 (`changeLightboxImage`).
 */
module Lightbox {

  /**
   `changeLightboxImage`'s index arithmetic: add the direction, then a
   negative index becomes the last one, and an index past the end becomes 0.
   With at least one image the result is always a valid index.
   */
  function Step(index: int, direction: int, count: int): (r: int)
    ensures count > 0 ==> 0 <= r < count
  {
    var moved := index + direction;
    var low := if moved < 0 then count - 1 else moved;
    if low >= count then 0 else low
  }

  /** Inside the list a step moves by exactly the direction. */
  lemma StepInside(index: int, direction: int, count: int)
    requires 0 <= index + direction < count
    ensures Step(index, direction, count) == index + direction
  {
  }

  /** Stepping forward from the last image wraps to the first, and back from the first to the last. */
  lemma StepWraps(count: int)
    requires count > 0
    ensures Step(count - 1, 1, count) == 0
    ensures Step(0, -1, count) == count - 1
  {
  }

  /** One step forward and one back (in either order) return to the same image. */
  lemma StepRoundTrip(index: int, count: int)
    requires 0 <= index < count
    ensures Step(Step(index, 1, count), -1, count) == index
    ensures Step(Step(index, -1, count), 1, count) == index
  {
  }

  /**
   The lightbox state for one photo work. `images` is the work's image list;
   `shownImage` and `counter` are what `updateLightboxImage` last wrote into the
   page (the image's `src` and the "n" of "n / total"); `scrollLocked` is the
   page body's `overflow: hidden`.
   */
  class Controller {
    const images: seq<string>
    var index: int
    var isOpen: bool
    var scrollLocked: bool
    var shownImage: string
    var counter: int

    /**
     The index is a valid image index (0 when there are no images), the
     counter shows index + 1, the page scroll is locked exactly while the
     lightbox is open, and an open lightbox shows the current image.
     */
    ghost predicate Valid()
      reads this
    {
      && counter == index + 1
      && (if |images| == 0 then index == 0 else 0 <= index < |images|)
      && scrollLocked == isOpen
      && (isOpen ==> |images| > 0 && shownImage == images[index])
    }

    /** The state right after the page renders: closed, index 0, counter "1", empty image. */
    constructor (images: seq<string>)
      ensures Valid()
      ensures this.images == images
      ensures index == 0 && !isOpen && !scrollLocked && shownImage == "" && counter == 1
    {
      this.images := images;
      index := 0;
      isOpen := false;
      scrollLocked := false;
      shownImage := "";
      counter := 1;
    }

    /** The "n / total" counter of a lightbox with images always reads between 1 and total. */
    lemma CounterInRange()
      requires Valid() && |images| > 0
      ensures 1 <= counter <= |images|
    {
    }

    /** `updateLightboxImage`: show the current image and its 1-based number. */
    method UpdateImage()
      requires 0 <= index < |images|
      modifies this`shownImage, this`counter
      ensures shownImage == images[index] && counter == index + 1
    {
      shownImage := images[index];
      counter := index + 1;
    }

    /** `openLightbox(i)`, called by the i-th thumbnail: show image i and lock the page scroll. */
    method Open(i: int)
      requires Valid()
      requires 0 <= i < |images|
      modifies this
      ensures Valid()
      ensures index == i && isOpen && scrollLocked
      ensures shownImage == images[i] && counter == i + 1
    {
      index := i;
      UpdateImage();
      isOpen := true;
      scrollLocked := true;
    }

    /** `closeLightbox`: hide the lightbox and unlock the page scroll; the index is kept. */
    method Close()
      requires Valid()
      modifies this
      ensures Valid()
      ensures !isOpen && !scrollLocked
      ensures index == old(index) && shownImage == old(shownImage) && counter == old(counter)
    {
      isOpen := false;
      scrollLocked := false;
    }

    /** `changeLightboxImage(direction)`: step with wrap-around and show the new image. */
    method ChangeImage(direction: int)
      requires Valid()
      requires |images| > 0
      modifies this
      ensures Valid()
      ensures index == Step(old(index), direction, |images|)
      ensures isOpen == old(isOpen) && scrollLocked == old(scrollLocked)
      ensures shownImage == images[index] && counter == index + 1
    {
      index := index + direction;
      if index < 0 {
        index := |images| - 1;
      }
      if index >= |images| {
        index := 0;
      }
      UpdateImage();
    }

    /**
     The keydown handler: nothing happens while the lightbox is closed; while
     it is open ArrowLeft and ArrowRight step back and forward, Escape closes,
     and any other key is ignored.
     */
    method HandleKey(key: string)
      requires Valid()
      modifies this
      ensures Valid()
      ensures !old(isOpen) ==> unchanged(this)
      ensures old(isOpen) && key == "ArrowLeft" ==>
        isOpen && index == Step(old(index), -1, |images|) && shownImage == images[index]
      ensures old(isOpen) && key == "ArrowRight" ==>
        isOpen && index == Step(old(index), 1, |images|) && shownImage == images[index]
      ensures old(isOpen) && key == "Escape" ==>
        !isOpen && index == old(index) && shownImage == old(shownImage)
      ensures key != "ArrowLeft" && key != "ArrowRight" && key != "Escape" ==> unchanged(this)
    {
      if isOpen {
        if key == "ArrowLeft" {
          ChangeImage(-1);
        }
        if key == "ArrowRight" {
          ChangeImage(1);
        }
        if key == "Escape" {
          Close();
        }
      }
    }
  }
}
