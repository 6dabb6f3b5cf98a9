/** Answers as sequences of lines. The exact wording and number formatting of a line
    are not modelled; a line records what it is about. */
module Render {
  import opened Wrappers
  import opened Wire
  import opened Seqs

  datatype Line =
    | Intro                          // "I found the following information:"
    | Header(dep: Dep, count: nat)   // "I found <count> relevant ..." / "Hospitals (<count> found):"
    | Bullet(dep: Dep, item: Item)   // "• <fields of item>"
    | Advisory                       // "For the most accurate ... contact the providers directly."

  /** Kinds of line that are counted when bounding an answer. */
  datatype LineKind = HeaderOf(dep: Dep) | BulletOf(dep: Dep)

  predicate IsKind(l: Line, k: LineKind)
  {
    match k
    case HeaderOf(d) => l.Header? && l.dep == d
    case BulletOf(d) => l.Bullet? && l.dep == d
  }

  function CountKind(lines: seq<Line>, k: LineKind): nat
  {
    if lines == [] then 0
    else CountKind(lines[..|lines| - 1], k) + (if IsKind(lines[|lines| - 1], k) then 1 else 0)
  }

  lemma {:induction false} CountKindAppend(a: seq<Line>, b: seq<Line>, k: LineKind)
    ensures CountKind(a + b, k) == CountKind(a, k) + CountKind(b, k)
    decreases |b|
  {
    if b != [] {
      assert (a + b)[..|a + b| - 1] == a + b[..|b| - 1];
      CountKindAppend(a, b[..|b| - 1], k);
    } else {
      assert a + b == a;
    }
  }

  /** `item[f]` succeeds for every field `f` the line reads. */
  predicate HasFields(item: Item, required: set<string>)
  {
    required <= item.Keys
  }

  /** One bullet per item, in order. */
  function Bullets(dep: Dep, items: seq<Item>): (r: seq<Line>)
    ensures |r| == |items|
    ensures forall k :: 0 <= k < |items| ==> r[k] == Bullet(dep, items[k])
  {
    seq(|items|, k requires 0 <= k < |items| => Bullet(dep, items[k]))
  }

  /** The lines one service contributes to an answer: nothing for an empty list,
      otherwise a header giving the full count and one bullet for each of the first
      `cap` items. `None` when one of the shown items lacks a field its bullet reads. */
  function Section(dep: Dep, items: seq<Item>, cap: nat, required: set<string>): Option<seq<Line>>
  {
    if items == [] then Some([])
    else
      var shown := items[..Min(cap, |items|)];
      if forall k :: 0 <= k < |shown| ==> HasFields(shown[k], required)
      then Some([Header(dep, |items|)] + Bullets(dep, shown))
      else None
  }

  lemma {:induction false} CountBullets(dep: Dep, items: seq<Item>, k: LineKind)
    ensures CountKind(Bullets(dep, items), k) == if k == BulletOf(dep) then |items| else 0
    decreases |items|
  {
    if items != [] {
      var n := |items| - 1;
      assert Bullets(dep, items)[..n] == Bullets(dep, items[..n]);
      CountBullets(dep, items[..n], k);
    }
  }

  /** A rendered section has one header when the list is non-empty, at most `cap`
      bullets, and no line about the other service; it fails exactly when a shown
      item lacks a field. */
  lemma SectionShape(dep: Dep, items: seq<Item>, cap: nat, required: set<string>, k: LineKind)
    ensures Section(dep, items, cap, required).None? <==>
      exists j :: 0 <= j < Min(cap, |items|) && !HasFields(items[j], required)
    ensures Section(dep, items, cap, required).Some? ==>
      var ls := Section(dep, items, cap, required).value;
      && (ls == [] <==> items == [])
      && CountKind(ls, k) ==
         (if k == HeaderOf(dep) && items != [] then 1
          else if k == BulletOf(dep) then Min(cap, |items|)
          else 0)
  {
    var shown := items[..Min(cap, |items|)];
    if items != [] {
      assert forall j :: 0 <= j < |shown| ==> shown[j] == items[j];
      if Section(dep, items, cap, required).Some? {
        CountKindAppend([Header(dep, |items|)], Bullets(dep, shown), k);
        CountBullets(dep, shown, k);
        assert CountKind([Header(dep, |items|)], k) == CountKind([], k) + (if IsKind(Header(dep, |items|), k) then 1 else 0);
      }
    }
  }

  /** Appends a section to `lines` the way the services do: the header, then a loop
      over the first `cap` items that reads each item's fields (raising `KeyError`,
      here `ok == false`, on the first one missing). */
  method RenderSection(lines: seq<Line>, dep: Dep, items: seq<Item>, cap: nat, required: set<string>)
    returns (ok: bool, out: seq<Line>)
    ensures ok <==> Section(dep, items, cap, required).Some?
    ensures ok ==> out == lines + Section(dep, items, cap, required).value
  {
    out := lines;
    if items == [] {
      return true, out;
    }
    out := out + [Header(dep, |items|)];
    var n := Min(cap, |items|);
    var k := 0;
    while k < n
      invariant 0 <= k <= n
      invariant forall j :: 0 <= j < k ==> HasFields(items[j], required)
      invariant out == lines + [Header(dep, |items|)] + Bullets(dep, items[..k])
    {
      if !HasFields(items[k], required) {
        assert items[..n][k] == items[k];
        return false, out;
      }
      assert Bullets(dep, items[..k + 1]) == Bullets(dep, items[..k]) + [Bullet(dep, items[k])];
      out := out + [Bullet(dep, items[k])];
      k := k + 1;
    }
    assert items[..n] == items[..k];
    ok := true;
  }
}
