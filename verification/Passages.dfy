/** Bounded, verbatim source windows (`electrical_passages` in `ingestion/supplied_source.py`): windows of
    1200 characters every 1000, taken greedily within a byte budget. */
module Passages {
  import Nominal

  datatype Page = Page(number: nat, text: string)
  datatype Window = Window(page: nat, text: string)
  datatype Passage = Passage(id: nat, page: nat, text: string)

  const STRIDE: nat := 1000
  const WIDTH: nat := 1200
  const OVERLAP: nat := WIDTH - STRIDE

  function Min(a: int, b: int): int { if a < b then a else b }

  // ----- cost and blankness -----

  function CharBytes(c: char): nat {
    var code := c as int;
    if code < 0x80 then 1 else if code < 0x800 then 2 else if code < 0x1_0000 then 3 else 4
  }

  /** `len(text.encode('utf-8'))`. */
  function Bytes(text: string): nat {
    if text == "" then 0 else Bytes(text[..|text| - 1]) + CharBytes(text[|text| - 1])
  }

  predicate Blank(text: string) { Nominal.Strip(text) == [] }

  // ----- the windows of a page -----

  /** A start the loop visits: the first one, and every later one whose overlap does not reach the end. */
  predicate IsStart(text: string, start: nat) {
    start % STRIDE == 0 && start < |text| && (start == 0 || start + OVERLAP < |text|)
  }

  function WindowAt(page: Page, start: nat): Window
    requires start <= |page.text|
  {
    Window(page.number, page.text[start..Min(start + WIDTH, |page.text|)])
  }

  /** The windows from `start` on, in order. */
  function WindowsFrom(page: Page, start: nat): seq<Window>
    decreases |page.text| - start
  {
    if start >= |page.text| || (start != 0 && start + OVERLAP >= |page.text|) then []
    else [WindowAt(page, start)] + WindowsFrom(page, start + STRIDE)
  }

  function AllWindows(pages: seq<Page>): seq<Window> {
    if pages == [] then [] else AllWindows(pages[..|pages| - 1]) + WindowsFrom(pages[|pages| - 1], 0)
  }

  // ----- the greedy choice -----

  datatype Selection = Selection(passages: seq<Passage>, used: nat, omitted: bool)

  function Taken(s: Selection, w: Window, budget: int): Selection {
    if Blank(w.text) then s
    else if s.used + Bytes(w.text) <= budget then
      Selection(s.passages + [Passage(|s.passages| + 1, w.page, w.text)], s.used + Bytes(w.text), s.omitted)
    else s.(omitted := true)
  }

  function Selected(windows: seq<Window>, budget: int): Selection {
    if windows == [] then Selection([], 0, false)
    else Taken(Selected(windows[..|windows| - 1], budget), windows[|windows| - 1], budget)
  }

  function Cost(passages: seq<Passage>): nat {
    if passages == [] then 0 else Cost(passages[..|passages| - 1]) + Bytes(passages[|passages| - 1].text)
  }

  lemma {:induction false} SelectedSnoc(windows: seq<Window>, w: Window, budget: int)
    ensures Selected(windows + [w], budget) == Taken(Selected(windows, budget), w, budget)
  {
    assert (windows + [w])[..|windows|] == windows;
  }

  /** One turn of the inner loop. */
  lemma {:induction false} NextWindow(page: Page, start: nat, earlier: seq<Window>, seen: seq<Window>, budget: int)
    requires start < |page.text| && !(start != 0 && start + OVERLAP >= |page.text|)
    ensures var w := WindowAt(page, start);
            && seen + WindowsFrom(page, start) == (seen + [w]) + WindowsFrom(page, start + STRIDE)
            && Selected(earlier + (seen + [w]), budget) == Taken(Selected(earlier + seen, budget), w, budget)
  {
    var w := WindowAt(page, start);
    SelectedSnoc(earlier + seen, w, budget);
    assert earlier + (seen + [w]) == (earlier + seen) + [w];
  }

  // ----- the loop -----

  /** The windows of one page, added to what earlier pages left. */
  method TakePage(page: Page, budget: int, ghost earlier: seq<Window>, before: Selection) returns (after: Selection)
    requires before == Selected(earlier, budget)
    ensures after == Selected(earlier + WindowsFrom(page, 0), budget)
  {
    after := before;
    var text := page.text;
    var start := 0;
    ghost var seen: seq<Window> := [];
    assert earlier + seen == earlier;
    while start < |text|
      invariant WindowsFrom(page, 0) == seen + WindowsFrom(page, start)
      invariant after == Selected(earlier + seen, budget)
      decreases |text| - start
    {
      if start != 0 && start + OVERLAP >= |text| { break; }
      NextWindow(page, start, earlier, seen, budget);
      seen := seen + [WindowAt(page, start)];
      var passage := text[start..Min(start + WIDTH, |text|)];
      var cost := Bytes(passage);
      if !Blank(passage) && after.used + cost <= budget {
        var id := |after.passages| + 1;
        after := Selection(after.passages + [Passage(id, page.number, passage)], after.used + cost, after.omitted);
      } else if !Blank(passage) {
        after := after.(omitted := true);
      }
      start := start + STRIDE;
    }
    assert seen == WindowsFrom(page, 0);
  }

  method ElectricalPassages(pages: seq<Page>, budget: int) returns (passages: seq<Passage>, omitted: bool)
    ensures passages == Selected(AllWindows(pages), budget).passages
    ensures omitted == Selected(AllWindows(pages), budget).omitted
  {
    var s := Selection([], 0, false);
    for i := 0 to |pages|
      invariant s == Selected(AllWindows(pages[..i]), budget)
    {
      s := TakePage(pages[i], budget, AllWindows(pages[..i]), s);
      assert pages[..i + 1][..i] == pages[..i];
    }
    assert pages[..|pages|] == pages;
    return s.passages, s.omitted;
  }

  // ----- what is promised of the selection -----

  /** Identifiers count 1, 2, 3 and so on, the cost is what was counted, and it stays within budget. */
  lemma {:induction false} NumberedWithinBudget(windows: seq<Window>, budget: int)
    ensures var s := Selected(windows, budget);
            && (forall i :: 0 <= i < |s.passages| ==> s.passages[i].id == i + 1)
            && s.used == Cost(s.passages)
            && (s.passages != [] ==> Cost(s.passages) <= budget)
    decreases |windows|
  {
    if windows == [] {
    } else {
      NumberedWithinBudget(windows[..|windows| - 1], budget);
      var s := Selected(windows[..|windows| - 1], budget);
      var w := windows[|windows| - 1];
      assert (s.passages + [Passage(|s.passages| + 1, w.page, w.text)])[..|s.passages|] == s.passages;
    }
  }

  predicate From(p: Passage, w: Window) { p.page == w.page && p.text == w.text }

  /** Every passage is one of the windows. */
  lemma {:induction false} PassagesAreWindows(windows: seq<Window>, budget: int)
    ensures forall i :: 0 <= i < |Selected(windows, budget).passages| ==>
              exists j :: 0 <= j < |windows| && From(Selected(windows, budget).passages[i], windows[j])
    decreases |windows|
  {
    if windows == [] {
      assert Selected(windows, budget).passages == [];
    } else {
      var n := |windows| - 1;
      PassagesAreWindows(windows[..n], budget);
      var before, after := Selected(windows[..n], budget).passages, Selected(windows, budget).passages;
      forall i | 0 <= i < |after| ensures exists j :: 0 <= j < |windows| && From(after[i], windows[j]) {
        if i < |before| {
          var j :| 0 <= j < n && From(before[i], windows[..n][j]);
          assert From(after[i], windows[j]);
        } else {
          assert From(after[i], windows[n]);
        }
      }
    }
  }

  /** When nothing is omitted, every window with text in it became a passage. */
  lemma {:induction false} NothingOmitted(windows: seq<Window>, budget: int, j: nat)
    requires !Selected(windows, budget).omitted && j < |windows| && !Blank(windows[j].text)
    ensures exists i :: 0 <= i < |Selected(windows, budget).passages| && From(Selected(windows, budget).passages[i], windows[j])
    decreases |windows|
  {
    var n := |windows| - 1;
    var before, after := Selected(windows[..n], budget).passages, Selected(windows, budget).passages;
    if j < n {
      NothingOmitted(windows[..n], budget, j);
      var i :| 0 <= i < |before| && From(before[i], windows[..n][j]);
      assert From(after[i], windows[j]);
    } else {
      assert From(after[|after| - 1], windows[j]);
    }
  }

  /** A window with text in it that did not fit what the earlier ones had left of the budget. */
  predicate Overflows(windows: seq<Window>, budget: int, j: nat)
    requires j < |windows|
  {
    !Blank(windows[j].text) && Selected(windows[..j], budget).used + Bytes(windows[j].text) > budget
  }

  lemma {:induction false} OverflowsEarlier(windows: seq<Window>, budget: int, j: nat)
    requires j < |windows| - 1
    ensures Overflows(windows, budget, j) == Overflows(windows[..|windows| - 1], budget, j)
  {
    assert windows[..|windows| - 1][..j] == windows[..j];
  }

  /** Something is omitted exactly for want of budget. */
  lemma {:induction false} OmittedForBudget(windows: seq<Window>, budget: int)
    ensures Selected(windows, budget).omitted <==> exists j: nat :: j < |windows| && Overflows(windows, budget, j)
    decreases |windows|
  {
    if windows == [] {
    } else {
      var n := |windows| - 1;
      OmittedForBudget(windows[..n], budget);
      forall j: nat | j < n ensures Overflows(windows, budget, j) == Overflows(windows[..n], budget, j) {
        OverflowsEarlier(windows, budget, j);
      }
      assert Selected(windows, budget).omitted <==> Selected(windows[..n], budget).omitted || Overflows(windows, budget, n);
      if j: nat :| j < n && Overflows(windows[..n], budget, j) { assert Overflows(windows, budget, j); }
    }
  }

  // ----- what is promised of the windows -----

  /** The windows of a page are its verbatim slices at the visited starts, and nothing else. */
  lemma {:induction false} WindowsAreSlices(page: Page, start: nat, i: nat)
    requires start % STRIDE == 0 && i < |WindowsFrom(page, start)|
    ensures IsStart(page.text, start + i * STRIDE)
    ensures WindowsFrom(page, start)[i] == WindowAt(page, start + i * STRIDE)
    decreases i
  {
    if i > 0 { WindowsAreSlices(page, start + STRIDE, i - 1); }
  }

  lemma {:induction false} StartsAreVisited(page: Page, from: nat, start: nat)
    requires from % STRIDE == 0 && from <= start && IsStart(page.text, start)
    ensures WindowAt(page, start) in WindowsFrom(page, from)
    decreases start - from
  {
    if from < start { StartsAreVisited(page, from + STRIDE, start); }
  }

  /** The start whose window holds the run [at, at + length). */
  function StartOf(text: string, at: nat): nat {
    var start := at / STRIDE * STRIDE;
    if IsStart(text, start) then start else start - Min(start, STRIDE)
  }

  /** Windows overlap enough that no short run is cut by all of them. */
  lemma {:induction false} RunFitsAWindow(page: Page, at: nat, length: nat)
    requires 0 < length <= OVERLAP && at + length <= |page.text|
    ensures var start := StartOf(page.text, at);
            IsStart(page.text, start) && start <= at && at + length <= Min(start + WIDTH, |page.text|)
  {
    var k := at / STRIDE;
    var start := k * STRIDE;
    assert start <= at < start + STRIDE;
    assert start % STRIDE == 0;
    if !IsStart(page.text, start) {
      assert start != 0 && start + OVERLAP >= |page.text|;
      assert k >= 1 && (start - STRIDE) % STRIDE == 0;
    }
  }

  lemma {:induction false} WindowOfPage(pages: seq<Page>, p: nat, w: Window)
    requires p < |pages| && w in WindowsFrom(pages[p], 0)
    ensures w in AllWindows(pages)
    decreases |pages|
  {
    if p < |pages| - 1 {
      WindowOfPage(pages[..|pages| - 1], p, w);
    }
  }

  lemma {:induction false} WindowHasPage(pages: seq<Page>, w: Window)
    requires w in AllWindows(pages)
    ensures exists p :: 0 <= p < |pages| && w in WindowsFrom(pages[p], 0)
    decreases |pages|
  {
    var n := |pages| - 1;
    if w in AllWindows(pages[..n]) {
      WindowHasPage(pages[..n], w);
      var p :| 0 <= p < n && w in WindowsFrom(pages[..n][p], 0);
      assert w in WindowsFrom(pages[p], 0);
    } else {
      assert w in WindowsFrom(pages[n], 0);
    }
  }

  predicate RunAt(text: string, run: string, i: nat) {
    i + |run| <= |text| && text[i..i + |run|] == run
  }

  ghost predicate Contains(text: string, run: string) {
    exists i: nat :: RunAt(text, run, i)
  }

  lemma {:induction false} NotBlank(text: string, i: nat)
    requires i < |text| && !Nominal.IsSpace(text[i])
    ensures !Blank(text)
    decreases |text|
  {
    if Nominal.IsSpace(text[0]) {
      NotBlank(text[1..], i - 1);
    } else if Nominal.IsSpace(text[|text| - 1]) {
      NotBlank(text[..|text| - 1], i);
    }
  }

  lemma {:induction false} SliceOfWindow(page: Page, start: nat, at: nat, length: nat)
    requires start <= at && at + length <= Min(start + WIDTH, |page.text|)
    ensures Contains(WindowAt(page, start).text, page.text[at..at + length])
  {
    var text, run := WindowAt(page, start).text, page.text[at..at + length];
    var i := at - start;
    assert text[i..i + length] == run;
    assert RunAt(text, run, i);
  }

  /** A short run with a visible character lies in a window of its page, which is not blank. */
  lemma {:induction false} RunHasWindow(page: Page, at: nat, length: nat, inked: nat)
    requires 0 < length <= OVERLAP && at + length <= |page.text|
    requires at <= inked < at + length && !Nominal.IsSpace(page.text[inked])
    ensures var start := StartOf(page.text, at);
            start <= |page.text| && var w := WindowAt(page, start);
            w in WindowsFrom(page, 0) && !Blank(w.text) && Contains(w.text, page.text[at..at + length])
  {
    RunFitsAWindow(page, at, length);
    var start := StartOf(page.text, at);
    var w := WindowAt(page, start);
    StartsAreVisited(page, 0, start);
    SliceOfWindow(page, start, at, length);
    assert w.text[inked - start] == page.text[inked];
    NotBlank(w.text, inked - start);
  }

  ghost predicate Carries(p: Passage, page: nat, run: string) { p.page == page && Contains(p.text, run) }

  /** When nothing is omitted, every run of at most 200 characters that is not all blank lies wholly
      inside one passage of its page. */
  lemma {:induction false} ShortRunsSurvive(pages: seq<Page>, budget: int, p: nat, at: nat, length: nat, inked: nat)
    requires !Selected(AllWindows(pages), budget).omitted
    requires p < |pages| && 0 < length <= OVERLAP && at + length <= |pages[p].text|
    requires at <= inked < at + length && !Nominal.IsSpace(pages[p].text[inked])
    ensures exists i :: 0 <= i < |Selected(AllWindows(pages), budget).passages| &&
              Carries(Selected(AllWindows(pages), budget).passages[i], pages[p].number, pages[p].text[at..at + length])
  {
    var page := pages[p];
    RunHasWindow(page, at, length, inked);
    var w := WindowAt(page, StartOf(page.text, at));
    WindowOfPage(pages, p, w);
    WindowIsCarried(AllWindows(pages), budget, w, page.text[at..at + length]);
  }

  lemma {:induction false} WindowIsCarried(windows: seq<Window>, budget: int, w: Window, run: string)
    requires !Selected(windows, budget).omitted && w in windows && !Blank(w.text) && Contains(w.text, run)
    ensures exists i :: 0 <= i < |Selected(windows, budget).passages| && Carries(Selected(windows, budget).passages[i], w.page, run)
  {
    var j :| 0 <= j < |windows| && windows[j] == w;
    NothingOmitted(windows, budget, j);
    var passages := Selected(windows, budget).passages;
    var i :| 0 <= i < |passages| && From(passages[i], w);
    assert Carries(passages[i], w.page, run);
  }

  /** Every passage is a verbatim slice of a page, at a visited start. */
  lemma {:induction false} PassagesAreVerbatim(pages: seq<Page>, budget: int, i: nat)
    requires i < |Selected(AllWindows(pages), budget).passages|
    ensures exists p, start: nat :: 0 <= p < |pages| && IsStart(pages[p].text, start)
              && From(Selected(AllWindows(pages), budget).passages[i], WindowAt(pages[p], start))
  {
    var windows := AllWindows(pages);
    PassagesAreWindows(windows, budget);
    var j :| 0 <= j < |windows| && From(Selected(windows, budget).passages[i], windows[j]);
    WindowHasPage(pages, windows[j]);
    var p :| 0 <= p < |pages| && windows[j] in WindowsFrom(pages[p], 0);
    var k :| 0 <= k < |WindowsFrom(pages[p], 0)| && WindowsFrom(pages[p], 0)[k] == windows[j];
    WindowsAreSlices(pages[p], 0, k);
  }
}
