/**
 * The retro loader: a rocket, countdown or radar animation. The countdown
 * holds a count that a one-second timer steps 3, 2, 1, 0 ("GO!") and back to 3.
 */
module RetroLoader {

  datatype Size = Sm | Md | Lg
  datatype Variant = Rocket | Countdown | Radar | Unrecognized
  datatype Loader = RocketLoader | CountdownLoader | RadarLoader

  /** The icon size class of `sizeConfig[size]`. */
  function IconSize(size: Size): string
  {
    match size
    case Sm => "w-12 h-12"
    case Md => "w-16 h-16"
    case Lg => "w-24 h-24"
  }

  /** `renderLoader`: the loader for the variant (the rocket for anything unrecognised) and its icon size. */
  function RenderLoader(variant: Variant, size: Size): (r: (Loader, string))
    ensures r.1 == IconSize(size)
    ensures r.0 == RocketLoader <==> variant == Rocket || variant == Unrecognized
    ensures r.0 == CountdownLoader <==> variant == Countdown
  {
    match variant
    case Rocket => (RocketLoader, IconSize(size))
    case Countdown => (CountdownLoader, IconSize(size))
    case Radar => (RadarLoader, IconSize(size))
    case Unrecognized => (RocketLoader, IconSize(size))
  }

  /** The timer's update `prev > 0 ? prev - 1 : 3`. */
  function Next(c: int): (n: int)
    ensures 0 <= c <= 3 ==> 0 <= n <= 3
    ensures 0 < c <= 3 ==> n == c - 1
  {
    if c > 0 then c - 1 else 3
  }

  /** What the count shows: `count || "GO!"`. */
  datatype Display = Go | Number(n: int)

  function Show(count: int): (d: Display)
    ensures d == Go <==> count == 0
  {
    if count == 0 then Go else Number(count)
  }

  /** The countdown component's state. */
  class CountdownState {
    var count: int

    ghost predicate Valid()
      reads this
    {
      0 <= count <= 3
    }

    constructor ()
      ensures Valid() && count == 3
    {
      count := 3;
    }

    /** The timer firing one second after the last change. */
    method Tick()
      requires Valid()
      modifies this
      ensures Valid()
      ensures count == Next(old(count))
      ensures old(count) == 0 ==> count == 3
    {
      count := if count > 0 then count - 1 else 3;
    }

    function Display(): (d: Display)
      reads this
    {
      Show(count)
    }
  }

  /** Four steps bring every reachable count back to itself: 3, 2, 1, 0, 3. */
  lemma FourStepCycle(c: int)
    requires 0 <= c <= 3
    ensures Next(Next(Next(Next(c)))) == c
    ensures Next(c) != c
  {
  }

  /** The steps from the start show 3, 2, 1, "GO!" and then 3 again. */
  lemma CountdownFromStart()
    ensures Show(3) == Number(3) && Show(Next(3)) == Number(2) && Show(Next(Next(3))) == Number(1)
    ensures Show(Next(Next(Next(3)))) == Go && Next(Next(Next(Next(3)))) == 3
  {
  }
}
