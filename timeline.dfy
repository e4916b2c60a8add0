/**
 * The company timeline: events laid out alternately left and right, each in a
 * colour that is either given or taken from a six-colour cycle.
 */
module Timeline {
  import opened Wrappers

  datatype TimelineColor = Orange | Teal | Aqua | Coral | Mustard | Gold {
    function Name(): string
    {
      match this
      case Orange => "orange"
      case Teal => "teal"
      case Aqua => "aqua"
      case Coral => "coral"
      case Mustard => "mustard"
      case Gold => "gold"
    }
  }

  datatype TimelineEvent = TimelineEvent(year: string, title: string, description: string, color: Option<TimelineColor>)

  const DefaultCycle: seq<TimelineColor> := [Teal, Orange, Aqua, Coral, Mustard, Gold]

  /**
   * `getDefaultColor`: the cycle entry at index mod 6. The first six indices
   * take the cycle in order; DefaultCyclePeriodic gives the repetition.
   */
  function DefaultColor(index: nat): (c: TimelineColor)
    ensures index < |DefaultCycle| ==> c == DefaultCycle[index]
  {
    DefaultCycle[index % 6]
  }

  /** The classes and colour one event is drawn with. */
  datatype EventLayout = EventLayout(
    color: TimelineColor, rowClass: string, paddingClass: string, borderClass: string, tiltClass: string)

  function LayoutEvent(event: TimelineEvent, index: nat): EventLayout
  {
    var color := if event.color.Some? then event.color.value else DefaultColor(index);
    var isEven := index % 2 == 0;
    EventLayout(color,
                if isEven then "md:flex-row-reverse" else "",
                if isEven then "md:pr-12" else "md:pl-12",
                "border-" + (if color == Aqua then "retro-teal" else "retro-" + color.Name()),
                if isEven then "md:rotate-tilt-reverse" else "md:rotate-tilt")
  }

  function Render(events: seq<TimelineEvent>): (ls: seq<EventLayout>)
    ensures |ls| == |events|
  {
    seq(|events|, i requires 0 <= i < |events| => LayoutEvent(events[i], i))
  }

  /** The default colours repeat with period 6 and run teal, orange, aqua, coral, mustard, gold. */
  lemma DefaultCyclePeriodic(index: nat)
    ensures DefaultColor(index + 6) == DefaultColor(index)
    ensures DefaultColor(6 * index) == Teal && DefaultColor(6 * index + 5) == Gold
  {
  }

  /** Every default colour is one of the six in the cycle. */
  lemma DefaultColorInCycle(index: nat)
    ensures DefaultColor(index) in DefaultCycle
  {
    assert DefaultColor(index) == DefaultCycle[index % 6];
  }

  /** An explicit colour overrides the default; without one the cycle decides. */
  lemma ColorChoice(events: seq<TimelineEvent>, i: nat)
    requires i < |events|
    ensures Render(events)[i].color == events[i].color.GetOr(DefaultColor(i))
  {
  }

  /**
   * Even rows are reversed with right padding and the reverse tilt; odd rows
   * keep the order with left padding and the normal tilt.
   */
  lemma Alternation(events: seq<TimelineEvent>, i: nat)
    requires i < |events|
    ensures var l := Render(events)[i];
      && (i % 2 == 0 ==> l.rowClass == "md:flex-row-reverse" && l.paddingClass == "md:pr-12" && l.tiltClass == "md:rotate-tilt-reverse")
      && (i % 2 == 1 ==> l.rowClass == "" && l.paddingClass == "md:pl-12" && l.tiltClass == "md:rotate-tilt")
      && (i + 1 < |events| ==> Render(events)[i + 1].tiltClass != l.tiltClass)
  {
    var ls := Render(events);
    assert ls[i] == LayoutEvent(events[i], i);
    LayoutParity(events[i], i);
    if i + 1 < |events| {
      assert ls[i + 1] == LayoutEvent(events[i + 1], i + 1);
      TiltAlternates(events[i], events[i + 1], i);
    }
  }

  /** Neighbouring events tilt opposite ways. */
  lemma TiltAlternates(a: TimelineEvent, b: TimelineEvent, index: nat)
    ensures LayoutEvent(a, index).tiltClass != LayoutEvent(b, index + 1).tiltClass
  {
    LayoutParity(a, index);
    LayoutParity(b, index + 1);
    ParityFlips(index);
    TiltNamesDiffer();
  }

  /** Consecutive indices have opposite parity. */
  lemma ParityFlips(n: nat)
    ensures n % 2 == 0 <==> (n + 1) % 2 == 1
    ensures n % 2 == 1 <==> (n + 1) % 2 == 0
  {
  }

  /** The two tilt classes are different strings. */
  lemma TiltNamesDiffer()
    ensures "md:rotate-tilt-reverse" != "md:rotate-tilt"
  {
    assert |"md:rotate-tilt-reverse"| != |"md:rotate-tilt"|;
  }

  /** The row, padding and tilt classes of one event depend only on the parity of its index. */
  lemma LayoutParity(event: TimelineEvent, index: nat)
    ensures var l := LayoutEvent(event, index);
      && (index % 2 == 0 ==> l.rowClass == "md:flex-row-reverse" && l.paddingClass == "md:pr-12" && l.tiltClass == "md:rotate-tilt-reverse")
      && (index % 2 == 1 ==> l.rowClass == "" && l.paddingClass == "md:pl-12" && l.tiltClass == "md:rotate-tilt")
  {
  }

  /** The card border is retro-teal for aqua events and retro-<colour> otherwise. */
  lemma BorderRule(event: TimelineEvent, index: nat)
    ensures var l := LayoutEvent(event, index);
      l.borderClass == "border-retro-" + (if l.color == Aqua then "teal" else l.color.Name())
  {
  }
}
