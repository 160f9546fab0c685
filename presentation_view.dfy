/**
 * The public presentation page, src/pages/PresentationView.tsx: the carousel index
 * moved by the previous and next buttons and by the dots, what the counter and the
 * buttons show, and the WhatsApp and call links built from the contact phone.
 */
module PresentationView {
  import opened Outcomes
  import opened JsText
  import FormEncoding

  /** What moves the carousel: the previous and next buttons and a click on the dot of
      property `i`. */
  datatype Move = Previous | Next | Dot(i: nat)

  /** The index after one move. */
  function Moved(loaded: bool, count: nat, index: int, m: Move): int {
    match m
    case Previous => if loaded && index > 0 then index - 1 else index
    case Next => if loaded && index < count - 1 then index + 1 else index
    case Dot(i) => i
  }

  /** Dots are only drawn for the properties there are. */
  predicate DotsInRange(count: nat, moves: seq<Move>) {
    forall k :: 0 <= k < |moves| && moves[k].Dot? ==> moves[k].i < count
  }

  /** The index after a run of moves from `index`. */
  function Run(loaded: bool, count: nat, index: int, moves: seq<Move>): int
    decreases |moves|
  {
    if moves == [] then index else Run(loaded, count, Moved(loaded, count, index, moves[0]), moves[1..])
  }

  predicate InRange(count: nat, index: int) {
    0 <= index && (count > 0 ==> index < count) && (count == 0 ==> index == 0)
  }

  /** Starting anywhere in range (the page starts at 0), every run of moves keeps the
      index on a property. */
  lemma {:induction false} RunStaysInRange(loaded: bool, count: nat, index: int, moves: seq<Move>)
    requires InRange(count, index) && DotsInRange(count, moves)
    ensures InRange(count, Run(loaded, count, index, moves))
    decreases |moves|
  {
    if moves != [] {
      assert DotsInRange(count, moves[1..]) by {
        forall k | 0 <= k < |moves[1..]| && moves[1..][k].Dot? ensures moves[1..][k].i < count {
          assert moves[1..][k] == moves[k + 1];
        }
      }
      assert moves[0].Dot? ==> moves[0].i < count;
      RunStaysInRange(loaded, count, Moved(loaded, count, index, moves[0]), moves[1..]);
    }
  }

  /** The keyboard listener as written: it is registered once, on the first render, and
      keeps that render's `handlePrevious` and `handleNext`, which see the first render's
      presentation (`firstLoaded`, `firstCount` properties) and index 0. The left arrow
      never moves; the right arrow sets the index to 1 whatever it is now, and only when
      the presentation was already there on the first render. */
  function KeyAsWritten(firstLoaded: bool, firstCount: nat, index: int, key: string): (r: int)
    ensures key != "ArrowRight" || !firstLoaded || firstCount < 2 ==> r == index
    ensures key == "ArrowRight" && firstLoaded && firstCount >= 2 ==> r == 1
  {
    var staleIndex := 0;
    if key == "ArrowLeft" && firstLoaded && staleIndex > 0 then staleIndex - 1
    else if key == "ArrowRight" && firstLoaded && staleIndex < firstCount - 1 then staleIndex + 1
    else index
  }

  /** The evidently intended listener: the arrows do what the buttons do, on the current
      presentation and index. */
  function KeyMoved(loaded: bool, count: nat, index: int, key: string): int {
    if key == "ArrowLeft" then Moved(loaded, count, index, Previous)
    else if key == "ArrowRight" then Moved(loaded, count, index, Next)
    else index
  }

  /** As written, the right arrow pressed twice on three cached properties stops at the
      second one, and pressed on the third goes back to the second; on a presentation
      that was still loading at the first render the arrows do nothing at all. */
  lemma StaleKeyListener()
    ensures KeyAsWritten(true, 3, KeyAsWritten(true, 3, 0, "ArrowRight"), "ArrowRight") == 1
    ensures KeyMoved(true, 3, KeyMoved(true, 3, 0, "ArrowRight"), "ArrowRight") == 2
    ensures KeyAsWritten(true, 3, 2, "ArrowRight") == 1
    ensures KeyAsWritten(false, 0, 0, "ArrowRight") == 0 && KeyMoved(true, 3, 0, "ArrowRight") == 1
  {
  }

  /** The intended keys keep the index on a property, and each arrow agrees with its
      button: left never moves forward, right never moves back. */
  lemma KeysStayInRange(loaded: bool, count: nat, index: int, key: string)
    requires InRange(count, index)
    ensures InRange(count, KeyMoved(loaded, count, index, key))
    ensures key == "ArrowLeft" ==> KeyMoved(loaded, count, index, key) == Run(loaded, count, index, [Previous])
    ensures key == "ArrowRight" ==> KeyMoved(loaded, count, index, key) == Run(loaded, count, index, [Next])
    ensures key == "ArrowLeft" ==> KeyMoved(loaded, count, index, key) <= index
    ensures key == "ArrowRight" ==> KeyMoved(loaded, count, index, key) >= index
  {
    RunStaysInRange(loaded, count, index, if key == "ArrowLeft" then [Previous] else [Next]);
  }

  /** The carousel over a loaded presentation of `count` properties. */
  class Carousel {
    const loaded: bool
    const count: nat
    var index: int

    /** The index always points at a property, or stays 0 when there is none. */
    predicate Valid()
      reads this
    {
      InRange(count, index)
    }

    constructor(loaded: bool, count: nat)
      ensures this.loaded == loaded && this.count == count && index == 0 && Valid()
    {
      this.loaded := loaded;
      this.count := count;
      index := 0;
    }

    /** `handlePrevious`: one back, only past the first property. */
    method HandlePrevious()
      requires Valid()
      modifies this
      ensures Valid() && index == Moved(loaded, count, old(index), Previous)
    {
      if loaded && index > 0 {
        index := index - 1;
      }
    }

    /** `handleNext`: one forward, only before the last property. */
    method HandleNext()
      requires Valid()
      modifies this
      ensures Valid() && index == Moved(loaded, count, old(index), Next)
    {
      if loaded && index < count - 1 {
        index := index + 1;
      }
    }

    /** The intended keyboard handler: an arrow calls the matching button's handler. */
    method HandleKey(key: string)
      requires Valid()
      modifies this
      ensures Valid() && index == KeyMoved(loaded, count, old(index), key)
    {
      if key == "ArrowLeft" {
        HandlePrevious();
      } else if key == "ArrowRight" {
        HandleNext();
      }
    }

    /** A dot click: the dots are drawn one per property. */
    method SelectDot(i: nat)
      requires Valid() && i < count
      modifies this
      ensures Valid() && index == Moved(loaded, count, old(index), Dot(i))
    {
      index := i;
    }

    /** The counter `index + 1 / count`. */
    function Counter(): (c: (int, int))
      reads this
      requires Valid() && count > 0
      ensures 1 <= c.0 <= c.1 == count
      ensures c.0 - 1 == index
    {
      (index + 1, count)
    }

    /** The previous button is shown exactly off the first property, the next button
        exactly off the last one; on a single property neither is. */
    function Buttons(): (shown: (bool, bool))
      reads this
      requires Valid() && count > 0
      ensures shown.0 <==> index != 0
      ensures shown.1 <==> index != count - 1
      ensures count == 1 ==> !shown.0 && !shown.1
    {
      (index > 0, index < count - 1)
    }
  }

  const WhatsAppPrefix: string := "https://wa.me/"

  /** The text shared with WhatsApp, closing characters included. */
  function ShareText(title: string, reference: string): string {
    "Hello, I'm interested in the property: " + title + " (" + reference + ").}"
  }

  /** `handleWhatsApp`: the link opened, if any. */
  function WhatsAppUrl(contactPhone: Option<string>, title: string, reference: string): Option<string> {
    if contactPhone.None? || !Truthy(contactPhone.value) then None
    else Some(WhatsAppPrefix + DigitsOnly(contactPhone.value) + "?text="
      + FormEncoding.EncodeUriComponent(ShareText(title, reference)))
  }

  /** `handleCall`: the `tel:` address navigated to, if any. */
  function CallUrl(contactPhone: Option<string>): (r: Option<string>)
    ensures r.Some? <==> contactPhone.Some? && contactPhone.value != ""
    ensures r.Some? ==> |r.value| >= 4 && r.value[..4] == "tel:" && r.value[4..] == contactPhone.value
  {
    if contactPhone.None? || !Truthy(contactPhone.value) then None else Some("tel:" + contactPhone.value)
  }

  /** Without a phone nothing opens; with one, the number in the link is made of exactly
      the digits of the phone, in order, and is followed by the `?text=` query. */
  lemma WhatsAppNumber(contactPhone: Option<string>, title: string, reference: string)
    ensures WhatsAppUrl(contactPhone, title, reference).Some? <==> contactPhone.Some? && contactPhone.value != ""
    ensures WhatsAppUrl(contactPhone, title, reference).Some? ==>
      var url := WhatsAppUrl(contactPhone, title, reference).value;
      var n := DigitsOnly(contactPhone.value);
      var start := |WhatsAppPrefix|;
      |url| > start + |n| && url[..start] == WhatsAppPrefix && url[start..start + |n|] == n &&
      url[start + |n|] == '?' &&
      (forall i :: 0 <= i < |n| ==> IsDigit(n[i])) &&
      (forall c :: c in n <==> c in contactPhone.value && IsDigit(c))
  {
    if contactPhone.Some? && contactPhone.value != "" {
      var n := DigitsOnly(contactPhone.value);
      var tail := "?text=" + FormEncoding.EncodeUriComponent(ShareText(title, reference));
      var url := WhatsAppPrefix + n + tail;
      assert url == WhatsAppPrefix + (n + tail);
      assert url[|WhatsAppPrefix|..] == n + tail;
      forall c ensures c in n <==> c in contactPhone.value && IsDigit(c) {
        DigitsOnlyKeepsDigits(contactPhone.value, c);
      }
    }
  }
}
