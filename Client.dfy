/** The browser side of the site that is not framework plumbing: the
    `HudCounter` component, the counter widget's +/- buttons, and the choice
    of element to scroll to on load. The framework's reactive signal is
    modelled as a plain field; JavaScript numbers as integers. */
module Client {
  import opened Js

  /** `{ count?: number }`: `count` is `None` when absent or `null`. */
  datatype CounterData = CounterData(count: Option<int>)

  /** The counter component; `count` is its reactive signal's value. */
  class HudCounter {
    var count: int

    /** `count` starts at 0 and takes the supplied value only when the data
        and its `count` are both present and not `null`. */
    constructor(data: Option<CounterData>)
      ensures data.Some? && data.value.count.Some? ==> count == data.value.count.value
      ensures !(data.Some? && data.value.count.Some?) ==> count == 0
    {
      count := 0;
      if data.Some? && data.value.count.Some? {
        count := data.value.count.value;
      }
    }

    /** A new component carrying the same count. */
    method Clone() returns (c: HudCounter)
      ensures fresh(c) && c.count == count
    {
      c := new HudCounter(Some(CounterData(Some(count))));
    }
  }

  /** `Math.max(0, count + delta)`: the count after a button press. */
  function NextCount(count: int, delta: int): (next: nat)
    ensures next >= count + delta
    ensures next == 0 || next == count + delta
  {
    if count + delta < 0 then 0 else count + delta
  }

  /** A decrement at zero stays at zero. */
  lemma DecrementAtZero()
    ensures NextCount(0, -1) == 0
  {
  }

  /** An increment from a non-negative count adds exactly one, and a
      decrement undoes it. */
  lemma IncrementThenDecrement(count: int)
    requires count >= 0
    ensures NextCount(count, 1) == count + 1
    ensures NextCount(NextCount(count, 1), -1) == count
  {
  }

  /** The counter widget: its component and the text of the element showing
      the count. */
  class HudWidget {
    const counter: HudCounter
    var display: string

    /** The count is never negative and the display shows it. */
    ghost predicate Valid()
      reads this, counter
    {
      counter.count >= 0 && display == Decimal(counter.count)
    }

    /** The widget builds its counter from `{ count: 0 }` and shows its count. */
    constructor()
      ensures Valid() && fresh(counter)
      ensures counter.count == 0 && display == "0"
    {
      var c := new HudCounter(Some(CounterData(Some(0))));
      counter := c;
      display := "0";
      display := Decimal(c.count);
    }

    /** `updateCount(delta)`: stores the clamped count and shows it; nothing
        else changes. */
    method UpdateCount(delta: int)
      modifies this`display, counter`count
      ensures counter.count == NextCount(old(counter.count), delta)
      ensures display == Decimal(counter.count)
      ensures Valid()
    {
      var next := NextCount(counter.count, delta);
      counter.count := next;
      display := Decimal(next);
    }

    /** The `+ TICK` button. */
    method IncClick()
      requires Valid()
      modifies this`display, counter`count
      ensures Valid() && counter.count == old(counter.count) + 1
    {
      UpdateCount(1);
    }

    /** The `- TICK` button. */
    method DecClick()
      requires Valid()
      modifies this`display, counter`count
      ensures Valid()
      ensures counter.count == if old(counter.count) == 0 then 0 else old(counter.count) - 1
    {
      UpdateCount(-1);
    }
  }

  /** The text a valid widget shows reads back as its count. */
  lemma DisplayReadsBack(w: HudWidget)
    requires w.Valid()
    ensures IsDecimal(w.display) && DecimalValue(w.display) == w.counter.count
  {
    DecimalRoundTrip(w.counter.count);
  }

  /** `location.hash.replace('#', '')`: the hash without its leading `#`,
      and a hash holding no `#` unchanged. */
  function FragmentId(hash: string): (id: string)
    ensures hash != "" && hash[0] == '#' ==> id == hash[1..]
    ensures '#' !in hash ==> id == hash
  {
    ReplaceFirst(hash, '#')
  }

  /** The id `scrollToAnchor` looks for: the fragment when it is non-empty,
      else a fixed id for `/docs` and `/examples`, else none (`""`). */
  function TargetId(hash: string, pathname: string): (id: string)
    ensures id == "" <==> FragmentId(hash) == "" && pathname != "/docs" && pathname != "/examples"
    ensures FragmentId(hash) != "" ==> id == FragmentId(hash)
  {
    var fragment := FragmentId(hash);
    if fragment != "" then fragment
    else if pathname == "/docs" then "docs-content"
    else if pathname == "/examples" then "examples"
    else ""
  }

  /** A fragment `#t` with `t` non-empty selects `t` on every page, even
      when `t` holds further `#` characters. */
  lemma TargetFromFragment(t: string, pathname: string)
    requires t != ""
    ensures TargetId("#" + t, pathname) == t
  {
    ReplaceFirstAt("#" + t, '#', 0);
    assert ("#" + t)[1..] == t;
  }

  /** Without a fragment the target depends on the pathname alone: `/docs`
      and `/examples` have one, every other page has none. */
  lemma TargetWithoutFragment(pathname: string)
    ensures TargetId("", pathname) != "" <==> pathname == "/docs" || pathname == "/examples"
    ensures pathname == "/docs" ==> TargetId("", pathname) == "docs-content"
    ensures pathname == "/examples" ==> TargetId("", pathname) == "examples"
  {
  }

  /** The element id scrolled to, if any: a scroll is attempted only for a
      non-empty target id. */
  function ScrollRequest(hash: string, pathname: string): (r: Option<string>)
    ensures r.Some? ==> r.value != ""
  {
    var id := TargetId(hash, pathname);
    if id != "" then Some(id) else None
  }

  /** What `initClient` does after hydration: one scroll request and,
      when the page was loaded without a fragment, a `hashchange` listener. */
  datatype Startup = Startup(scroll: Option<string>, listensForHashChange: bool)

  function InitClient(hash: string, pathname: string): (s: Startup)
    ensures s.listensForHashChange <==> hash == ""
    ensures s.scroll.Some? ==> s.scroll.value == TargetId(hash, pathname)
  {
    Startup(ScrollRequest(hash, pathname), hash == "")
  }

  /** The listener is registered exactly when the initial fragment is empty;
      a scroll is requested exactly when the target id is non-empty, and
      then for that id. */
  lemma InitClientEffects(hash: string, pathname: string)
    ensures InitClient(hash, pathname).listensForHashChange <==> hash == ""
    ensures InitClient(hash, pathname).scroll.Some? <==> TargetId(hash, pathname) != ""
    ensures InitClient(hash, pathname).scroll.Some? ==> InitClient(hash, pathname).scroll.value == TargetId(hash, pathname)
    ensures hash == "" ==> (InitClient(hash, pathname).scroll ==
      if pathname == "/docs" then Some("docs-content") else if pathname == "/examples" then Some("examples") else None)
  {
  }
}
