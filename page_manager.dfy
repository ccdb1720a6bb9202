/**
 * `PageManager`: the stack of UI pages. Pages sit in a fixed-size array
 * with the top at `pageStackPos` (-1 when empty); key and encoder events
 * go to the pages from the top down until one consumes the event, and the
 * refresh rate is the lowest any stacked page asks for.
 *
 * Pages are compared by identity, as the firmware compares page addresses.
 * What a page does when it is entered, left or told of a page switch is
 * not part of this model; the calls themselves are returned, in order, as
 * a list of `PageCall`s.
 */
module PageManagers {
  import opened Keys

  /** A call the page manager makes on a page. */
  datatype PageCall<Page> = Enter(page: Page) | Exit(page: Page) | NotifyPageSwitch(page: Page)

  /** An event: a key press carries its key; other event kinds are only told apart from it. */
  datatype Event = KeyPress(key: Key) | OtherEvent(kind: int)

  /** Exits for the pages of `s`, from the top (the end of `s`) down. */
  function ExitsTopDown<Page>(s: seq<Page>): (r: seq<PageCall<Page>>)
    ensures |r| == |s|
  {
    if |s| == 0 then [] else ExitsTopDown(s[1..]) + [Exit(s[0])]
  }

  /** The `i`-th exit is for the `i`-th page counted from the top. */
  lemma {:induction false} ExitsTopDownOrder<Page>(s: seq<Page>)
    ensures forall i :: 0 <= i < |s| ==> ExitsTopDown(s)[i] == Exit(s[|s| - 1 - i])
  {
    if |s| > 0 {
      ExitsTopDownOrder(s[1..]);
    }
  }

  /** Leaving one more page below those already left adds its exit at the end. */
  lemma ExitsTopDownExtend<Page>(s: seq<Page>, k: nat)
    requires k < |s|
    ensures ExitsTopDown(s[k..]) == ExitsTopDown(s[k + 1..]) + [Exit(s[k])]
  {
    assert s[k..][1..] == s[k + 1..];
  }

  /** The lowest refresh rate the pages of `s` ask for, and at most 100. */
  function MinFps<Page>(s: seq<Page>, fpsOf: Page -> int): int
    decreases |s|
  {
    if |s| == 0 then 100 else
      var m := MinFps(s[..|s| - 1], fpsOf);
      if fpsOf(s[|s| - 1]) < m then fpsOf(s[|s| - 1]) else m
  }

  /**
   * `MinFps` is the minimum of 100 and every page's rate: no more than
   * any of them, and equal to 100 or to the rate of one of the pages.
   */
  lemma {:induction false} MinFpsIsMinimum<Page>(s: seq<Page>, fpsOf: Page -> int)
    ensures MinFps(s, fpsOf) <= 100
    ensures forall p :: p in s ==> MinFps(s, fpsOf) <= fpsOf(p)
    ensures MinFps(s, fpsOf) == 100 || exists p :: p in s && MinFps(s, fpsOf) == fpsOf(p)
    decreases |s|
  {
    if |s| > 0 {
      var s' := s[..|s| - 1];
      MinFpsIsMinimum(s', fpsOf);
      assert s == s' + [s[|s| - 1]];
      forall p | p in s
        ensures MinFps(s, fpsOf) <= fpsOf(p)
      {
        if p in s' {
        } else {
          assert p == s[|s| - 1];
        }
      }
      if MinFps(s, fpsOf) != 100 && MinFps(s, fpsOf) != fpsOf(s[|s| - 1]) {
        var q :| q in s' && MinFps(s', fpsOf) == fpsOf(q);
        assert q in s;
      }
    }
  }

  /**
   * The pages an event is handed to, from the top of `s` down: each in
   * turn until one consumes it.
   */
  function Dispatched<Page>(s: seq<Page>, e: Event, consumes: (Page, Event) -> bool): seq<Page>
    decreases |s|
  {
    if |s| == 0 then []
    else if consumes(s[|s| - 1], e) then [s[|s| - 1]]
    else [s[|s| - 1]] + Dispatched(s[..|s| - 1], e, consumes)
  }

  /**
   * Dispatch goes from the top down and stops at the first page that
   * consumes the event: the pages handed the event are the top pages of
   * the stack in top-down order; none but the last consumed it; and it
   * stops before the bottom only because the last one did.
   */
  lemma {:induction false} DispatchStopsAtFirstConsumer<Page>(s: seq<Page>, e: Event, consumes: (Page, Event) -> bool)
    ensures var v := Dispatched(s, e, consumes);
      && |v| <= |s|
      && (forall i :: 0 <= i < |v| ==> v[i] == s[|s| - 1 - i])
      && (forall i :: 0 <= i < |v| - 1 ==> !consumes(v[i], e))
      && (|v| < |s| ==> |v| > 0 && consumes(v[|v| - 1], e))
      && (|s| > 0 ==> |v| > 0)
    decreases |s|
  {
    if |s| > 0 && !consumes(s[|s| - 1], e) {
      var s' := s[..|s| - 1];
      DispatchStopsAtFirstConsumer(s', e, consumes);
      var v' := Dispatched(s', e, consumes);
      var v := Dispatched(s, e, consumes);
      assert v == [s[|s| - 1]] + v';
      forall i | 0 <= i < |v|
        ensures v[i] == s[|s| - 1 - i]
      {
        if i > 0 {
          assert v[i] == v'[i - 1];
        }
      }
    }
  }

  class PageManager<Page(==)> {
    /** `_pageStack`, of `PageStackSize` entries. */
    const pageStack: array<Page>
    /** The index of the top page, -1 when the stack is empty. */
    var pageStackPos: int
    /** `_pages.home`. */
    const home: Page

    ghost predicate Valid()
      reads this
    {
      -1 <= pageStackPos < pageStack.Length
    }

    /** The stacked pages, bottom first. */
    ghost function Stack(): (s: seq<Page>)
      requires Valid()
      reads this, pageStack
      ensures |s| == pageStackPos + 1
    {
      pageStack[..pageStackPos + 1]
    }

    /** An empty stack over the given array. */
    constructor(pageStack: array<Page>, home: Page)
      ensures Valid() && Stack() == [] && this.pageStack == pageStack && this.home == home
    {
      this.pageStack := pageStack;
      this.home := home;
      pageStackPos := -1;
    }

    /** `top`: the page on top; the stack must not be empty. */
    method Top() returns (page: Page)
      requires Valid() && pageStackPos >= 0
      ensures page == Stack()[|Stack()| - 1]
    {
      page := pageStack[pageStackPos];
    }

    /**
     * `push`: a page already on the stack is not pushed again; otherwise
     * it becomes the new top, is entered, and the switch is announced.
     * The stack must have room for one more page even when the page is
     * already on it.
     */
    method Push(page: Page) returns (calls: seq<PageCall<Page>>)
      requires Valid() && pageStackPos < pageStack.Length - 1
      modifies this`pageStackPos, pageStack
      ensures Valid()
      ensures page in old(Stack()) ==> Stack() == old(Stack()) && calls == []
      ensures page !in old(Stack()) ==> Stack() == old(Stack()) + [page] && calls == [Enter(page), NotifyPageSwitch(page)]
    {
      for i := 0 to pageStackPos + 1
        invariant page !in pageStack[..i]
      {
        if pageStack[i] == page {
          return [];
        }
      }
      assert pageStack[..pageStackPos + 1] == Stack();
      pageStackPos := pageStackPos + 1;
      pageStack[pageStackPos] := page;
      calls := [Enter(page), NotifyPageSwitch(page)];
    }

    /**
     * `pop`: the top page is left and removed; the stack must hold at
     * least two pages, so that the page below can be told it is on top.
     */
    method Pop() returns (calls: seq<PageCall<Page>>)
      requires Valid() && pageStackPos > 0
      modifies this`pageStackPos
      ensures Valid()
      ensures Stack() == old(Stack())[..|old(Stack())| - 1]
      ensures calls == [Exit(old(Stack())[|old(Stack())| - 1]), NotifyPageSwitch(Stack()[|Stack()| - 1])]
    {
      var top := Top();
      calls := [Exit(top)];
      pageStackPos := pageStackPos - 1;
      if pageStackPos >= 0 {
        top := Top();
        calls := calls + [NotifyPageSwitch(top)];
      }
    }

    /** `reset`: every page is left, from the top down, and `page` is pushed onto the emptied stack. */
    method Reset(page: Page) returns (calls: seq<PageCall<Page>>)
      requires Valid() && pageStack.Length >= 1
      modifies this`pageStackPos, pageStack
      ensures Valid()
      ensures Stack() == [page]
      ensures calls == ExitsTopDown(old(Stack())) + [Enter(page), NotifyPageSwitch(page)]
    {
      ghost var s := Stack();
      calls := [];
      while pageStackPos >= 0
        invariant -1 <= pageStackPos < |s| && pageStack[..|s|] == s
        invariant calls == ExitsTopDown(s[pageStackPos + 1..])
        invariant pageStackPos == -1 ==> calls == ExitsTopDown(s)
        decreases pageStackPos
      {
        ExitsTopDownExtend(s, pageStackPos);
        calls := calls + [Exit(pageStack[pageStackPos])];
        pageStackPos := pageStackPos - 1;
      }
      assert Stack() == [];
      var pushed := Push(page);
      assert Stack() == [] + [page];
      calls := calls + pushed;
    }

    /**
     * `replace`: the page at `index` is left and `page` takes its slot and
     * is entered; only a replaced top page is announced as a switch.
     */
    method Replace(index: int, page: Page) returns (calls: seq<PageCall<Page>>)
      requires Valid() && 0 <= index <= pageStackPos
      modifies pageStack
      ensures Valid()
      ensures Stack() == old(Stack())[index := page]
      ensures calls == [Exit(old(Stack())[index]), Enter(page)]
        + (if index == pageStackPos then [NotifyPageSwitch(page)] else [])
    {
      calls := [Exit(pageStack[index])];
      pageStack[index] := page;
      calls := calls + [Enter(page)];
      if index == pageStackPos {
        calls := calls + [NotifyPageSwitch(page)];
      }
    }

    /** `fps`: the lowest refresh rate of the stacked pages, and at most 100. */
    method Fps(fpsOf: Page -> int) returns (fps: int)
      requires Valid()
      ensures fps == MinFps(Stack(), fpsOf)
    {
      fps := 100;
      for i := 0 to pageStackPos + 1
        invariant fps == MinFps(pageStack[..i], fpsOf)
      {
        assert pageStack[..i + 1][..i] == pageStack[..i];
        fps := if fpsOf(pageStack[i]) < fps then fpsOf(pageStack[i]) else fps;
      }
      assert pageStack[..pageStackPos + 1] == Stack();
    }

    /**
     * `dispatchEvent`: a home key press while another page is on top
     * resets the stack to the home page and is consumed there; otherwise
     * the event goes to the pages from the top down until one consumes it.
     * Returns the pages the event was handed to and the calls the reset
     * made. Only a home key press looks at the top page, so only it needs
     * a page on the stack.
     */
    method DispatchEvent(e: Event, consumes: (Page, Event) -> bool) returns (handled: seq<Page>, calls: seq<PageCall<Page>>)
      requires Valid() && (e.KeyPress? && e.key.IsHome() ==> pageStackPos >= 0)
      modifies this`pageStackPos, pageStack
      ensures Valid()
      ensures var homePress := e.KeyPress? && e.key.IsHome() && old(Stack())[|old(Stack())| - 1] != home;
        && (homePress ==> Stack() == [home] && handled == []
                          && calls == ExitsTopDown(old(Stack())) + [Enter(home), NotifyPageSwitch(home)])
        && (!homePress ==> Stack() == old(Stack()) && calls == [] && handled == Dispatched(Stack(), e, consumes))
    {
      calls, handled := [], [];
      if e.KeyPress? && e.key.IsHome() {
        var top := Top();
        if top != home {
          calls := Reset(home);
          return;
        }
      }
      var consumed := false;
      var i := pageStackPos;
      while i >= 0 && !consumed
        invariant -1 <= i <= pageStackPos
        invariant !consumed ==> handled + Dispatched(pageStack[..i + 1], e, consumes) == Dispatched(Stack(), e, consumes)
        invariant consumed ==> handled == Dispatched(Stack(), e, consumes)
        decreases i
      {
        assert pageStack[..i + 1][..i] == pageStack[..i];
        handled := handled + [pageStack[i]];
        consumed := consumes(pageStack[i], e);
        i := i - 1;
      }
      if !consumed {
        assert pageStack[..0] == [];
      }
    }
  }
}
