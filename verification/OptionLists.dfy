/**
  Joining option lists given by several -o options (qemu/qemu-img.c).  Within a list a
  comma separates two options; a doubled comma stands for a comma (qemu/util/qemu-option.c).
*/
module OptionLists {

  /** What a reader of the list makes of it, from left to right; never empty. */
  function Split(s: string): (r: seq<string>)
    ensures r != []
  {
    if s == "" then [""]
    else if s[0] != ',' then Prepend(s[0], Split(s[1..]))
    else if |s| > 1 && s[1] == ',' then Prepend(',', Split(s[2..]))
    else [""] + Split(s[1..])
  }

  function Prepend(c: char, r: seq<string>): seq<string>
    requires r != []
  {
    [[c] + r[0]] + r[1..]
  }

  /** Two readings with the last option of the one going on in the first of the other. */
  function Glue(a: seq<string>, b: seq<string>): (r: seq<string>)
    requires a != [] && b != []
    ensures r != [] && |r| == |a| + |b| - 1
  {
    a[..|a| - 1] + [a[|a| - 1] + b[0]] + b[1..]
  }

  function TrailingCommas(s: string): (n: nat)
    ensures n <= |s|
    ensures forall i :: |s| - n <= i < |s| ==> s[i] == ','
    ensures n < |s| ==> s[|s| - n - 1] != ','
  {
    if s == "" || s[|s| - 1] != ',' then 0 else 1 + TrailingCommas(s[..|s| - 1])
  }

  predicate Valid(s: string) {
    s != "" && s[0] != ',' && TrailingCommas(s) % 2 == 0
  }

  lemma {:induction false} TrailingIsUnique(s: string, n: nat)
    requires n <= |s| && (forall i :: |s| - n <= i < |s| ==> s[i] == ',')
    requires n < |s| ==> s[|s| - n - 1] != ','
    ensures n == TrailingCommas(s)
  {
    if n > 0 {
      TrailingIsUnique(s[..|s| - 1], n - 1);
    }
  }

  /** is_valid_option_list */
  method IsValidOptionList(list: string) returns (ok: bool)
    ensures ok <==> Valid(list)
  {
    if list == "" || list[0] == ',' {
      return false;
    }
    var i := |list|;
    while i > 0 && list[i - 1] == ','
      invariant 0 <= i <= |list| && forall k :: i <= k < |list| ==> list[k] == ','
    {
      i := i - 1;
    }
    TrailingIsUnique(list, |list| - i);
    return (|list| - i) % 2 == 0;
  }

  // ------------------------------------------------------------------
  // Reading a list that continues

  lemma PrependGlue(c: char, a: seq<string>, b: seq<string>)
    requires a != [] && b != []
    ensures Glue(Prepend(c, a), b) == Prepend(c, Glue(a, b))
  {
    if |a| == 1 {
      assert [c] + a[0] + b[0] == [c] + (a[0] + b[0]);
    }
  }

  lemma {:induction false} SuffixKeepsTrailing(s: string, n: nat)
    requires n <= |s| && TrailingCommas(s) <= |s| - n
    ensures TrailingCommas(s[n..]) == TrailingCommas(s)
  {
    TrailingIsUnique(s[n..], TrailingCommas(s));
  }

  lemma {:induction false} AllCommas(s: string)
    requires forall i :: 0 <= i < |s| ==> s[i] == ','
    ensures TrailingCommas(s) == |s|
  {
    TrailingIsUnique(s, |s|);
  }

  lemma GluePlain(m: string, t: string)
    requires m != "" && m[0] != ',' && Split(m[1..] + t) == Glue(Split(m[1..]), Split(t))
    ensures Split(m + t) == Glue(Split(m), Split(t))
  {
    assert (m + t)[1..] == m[1..] + t;
    PrependGlue(m[0], Split(m[1..]), Split(t));
  }

  lemma GlueEscaped(m: string, t: string)
    requires |m| > 1 && m[0] == ',' && m[1] == ',' && Split(m[2..] + t) == Glue(Split(m[2..]), Split(t))
    ensures Split(m + t) == Glue(Split(m), Split(t))
  {
    assert (m + t)[2..] == m[2..] + t;
    PrependGlue(',', Split(m[2..]), Split(t));
  }

  lemma GlueSeparator(m: string, t: string)
    requires |m| > 1 && m[0] == ',' && m[1] != ',' && Split(m[1..] + t) == Glue(Split(m[1..]), Split(t))
    ensures Split(m + t) == Glue(Split(m), Split(t))
  {
    assert (m + t)[1..] == m[1..] + t;
    var a, b := Split(m[1..]), Split(t);
    assert [""] + Glue(a, b) == Glue([""] + a, b);
  }

  /** A reader of `m` that ends with an even number of commas is between two options or characters at its end. */
  lemma {:induction false} SplitGlue(m: string, t: string)
    requires TrailingCommas(m) % 2 == 0
    ensures Split(m + t) == Glue(Split(m), Split(t))
    decreases |m|
  {
    if m == "" {
      assert m + t == t;
      assert "" + Split(t)[0] == Split(t)[0];
    } else if m[0] != ',' {
      SuffixKeepsTrailing(m, 1);
      SplitGlue(m[1..], t);
      GluePlain(m, t);
    } else if |m| > 1 && m[1] == ',' {
      EscapedKeepsEven(m);
      SplitGlue(m[2..], t);
      GlueEscaped(m, t);
    } else {
      LoneComma(m);
      SplitGlue(m[1..], t);
      GlueSeparator(m, t);
    }
  }

  lemma {:induction false} LoneComma(m: string)
    requires m != "" && m[0] == ',' && (|m| > 1 ==> m[1] != ',') && TrailingCommas(m) % 2 == 0
    ensures |m| > 1 && TrailingCommas(m[1..]) == TrailingCommas(m)
  {
    var n := TrailingCommas(m);
    if |m| == 1 {
      AllCommas(m);
    } else {
      SuffixKeepsTrailing(m, 1);
    }
  }

  lemma {:induction false} EscapedKeepsEven(m: string)
    requires |m| > 1 && m[0] == ',' && m[1] == ',' && TrailingCommas(m) % 2 == 0
    ensures TrailingCommas(m[2..]) % 2 == 0
  {
    EscapedTrailing(m, TrailingCommas(m));
  }

  lemma {:induction false} EscapedTrailing(m: string, n: nat)
    requires |m| > 1 && m[0] == ',' && m[1] == ',' && n == TrailingCommas(m)
    ensures TrailingCommas(m[2..]) == if n == |m| then n - 2 else n
  {
    if n == |m| {
      AllCommas(m[2..]);
    } else {
      assert m[|m| - n - 1] != ',';
      SuffixKeepsTrailing(m, 2);
    }
  }

  // ------------------------------------------------------------------
  // Joining

  function Join(a: string, b: string): string {
    a + "," + b
  }

  /** Joined lists are read one after the other, and can be joined again. */
  lemma {:induction false} JoinSplits(a: string, b: string)
    requires Valid(a) && Valid(b)
    ensures Split(Join(a, b)) == Split(a) + Split(b)
    ensures Valid(Join(a, b))
  {
    JoinIsRead(a, b);
    JoinIsValid(a, b);
  }

  lemma {:induction false} JoinIsRead(a: string, b: string)
    requires TrailingCommas(a) % 2 == 0 && (b == "" || b[0] != ',')
    ensures Split(Join(a, b)) == Split(a) + Split(b)
  {
    var t := "," + b;
    assert Join(a, b) == a + t;
    SplitGlue(a, t);
    SplitSeparator(b);
    GlueSeparated(Split(a), Split(b));
  }

  lemma {:induction false} JoinIsValid(a: string, b: string)
    requires Valid(a) && Valid(b)
    ensures Valid(Join(a, b))
  {
    var j := Join(a, b);
    var n := TrailingCommas(b);
    assert j[0] == a[0];
    assert j[|j| - n..] == b[|b| - n..];
    assert j[|j| - n - 1] == b[|b| - n - 1];
    TrailingIsUnique(j, n);
  }

  lemma SplitSeparator(b: string)
    requires b == "" || b[0] != ','
    ensures Split("," + b) == [""] + Split(b)
  {
    assert ("," + b)[1..] == b;
  }

  lemma GlueSeparated(x: seq<string>, y: seq<string>)
    requires x != [] && y != []
    ensures Glue(x, [""] + y) == x + y
  {
    assert x[|x| - 1] + "" == x[|x| - 1];
  }

  /** accumulate_options for each list in turn; nothing is accumulated from a list that is refused. */
  method Accumulate(lists: seq<string>) returns (ok: bool, options: string)
    ensures ok <==> forall i :: 0 <= i < |lists| ==> Valid(lists[i])
    ensures ok && lists != [] ==> Accumulated(options, lists)
  {
    options := "";
    var n := 0;
    while n < |lists|
      invariant n <= |lists| && forall i :: 0 <= i < n ==> Valid(lists[i])
      invariant n > 0 ==> Accumulated(options, lists[..n])
    {
      ok := IsValidOptionList(lists[n]);
      if !ok {
        return;
      }
      assert lists[..n + 1] == lists[..n] + [lists[n]];
      if n == 0 {
        FirstAccumulated(lists[n]);
        options := lists[n];
      } else {
        NextAccumulated(options, lists[..n], lists[n]);
        options := Join(options, lists[n]);
      }
      n := n + 1;
    }
    assert lists[..n] == lists;
    ok := true;
  }

  predicate Accumulated(options: string, lists: seq<string>) {
    Valid(options) && Split(options) == SplitAll(lists)
  }

  lemma {:induction false} FirstAccumulated(list: string)
    requires Valid(list)
    ensures Accumulated(list, [] + [list])
  {
    assert ([] + [list])[..0] == [];
    assert [] + Split(list) == Split(list);
  }

  lemma {:induction false} NextAccumulated(options: string, lists: seq<string>, list: string)
    requires Accumulated(options, lists) && Valid(list)
    ensures Accumulated(Join(options, list), lists + [list])
  {
    JoinSplits(options, list);
    assert (lists + [list])[..|lists|] == lists;
  }

  function SplitAll(lists: seq<string>): seq<string> {
    if lists == [] then [] else SplitAll(lists[..|lists| - 1]) + Split(lists[|lists| - 1])
  }

  // ------------------------------------------------------------------
  // The check refuses exactly the lists that are not safe

  /** The list keeps its reading whatever accepted lists it stands between. */
  ghost predicate Safe(list: string) {
    forall p, q :: Valid(p) && Valid(q) ==> Split(Join(Join(p, list), q)) == Split(p) + Split(list) + Split(q)
  }

  lemma ValidIsSafe(list: string)
    ensures Valid(list) <==> Safe(list)
  {
    if Valid(list) {
      forall p, q | Valid(p) && Valid(q) ensures Split(Join(Join(p, list), q)) == Split(p) + Split(list) + Split(q) {
        JoinSplits(p, list);
        JoinSplits(Join(p, list), q);
      }
    } else {
      Plain();
      assert Split(Join(Join("x", list), "y")) != Split("x") + Split(list) + Split("y") by {
        if list == "" {
          EmptyBreaks();
        } else if list[0] == ',' {
          LeadingBreaks(list);
        } else {
          TrailingBreaks(list);
        }
      }
    }
  }

  lemma SplitChar(c: char)
    requires c != ','
    ensures Split([c]) == [[c]]
  {
    var s := [c];
    assert s[1..] == "";
    assert [c] + "" == s;
  }

  lemma Plain()
    ensures Valid("x") && Valid("y") && Split("x") == ["x"] && Split("y") == ["y"]
  {
    SplitChar('x');
    SplitChar('y');
  }

  lemma EmptyBreaks()
    ensures |Split(Join(Join("x", ""), "y"))| == 1
    ensures Split(Join(Join("x", ""), "y")) != Split("x") + Split("") + Split("y")
  {
    var s := Join(Join("x", ""), "y");
    assert s == "x,,y" && s[1..] == ",,y" && ",,y"[2..] == "y";
    Plain();
  }

  lemma LeadingBreaks(list: string)
    requires list != "" && list[0] == ','
    ensures Split(Join(Join("x", list), "y")) != Split("x") + Split(list) + Split("y")
  {
    Plain();
    var s := Join(Join("x", list), "y");
    var t := s[1..];
    assert t[0] == ',' && t[1] == ',';
    assert Split(t)[0][0] == ',';
    assert |Split(s)[0]| > 1;
    assert (Split("x") + Split(list) + Split("y"))[0] == "x";
  }

  lemma TrailingBreaks(list: string)
    requires list != "" && list[0] != ',' && TrailingCommas(list) % 2 == 1
    ensures Split(Join(Join("x", list), "y")) != Split("x") + Split(list) + Split("y")
  {
    Plain();
    var m := Join("x", list[..|list| - 1]);
    var s := Join(Join("x", list), "y");
    assert s == m + ",,y";
    OddMinusOne(list);
    SplitGlue(m, ",,y");
    assert ",,y"[2..] == "y";
    assert |Split(",,y")| == 1 && |Split(",,y")[0]| == 2;
    LastOfGlue(Split(m), Split(",,y"));
    var r := Split("x") + Split(list) + Split("y");
    assert r[|r| - 1] == "y";
  }

  lemma {:induction false} OddMinusOne(list: string)
    requires TrailingCommas(list) % 2 == 1 && list != "" && list[0] != ','
    ensures TrailingCommas(Join("x", list[..|list| - 1])) % 2 == 0
  {
    TrailingIsUnique(Join("x", list[..|list| - 1]), TrailingCommas(list) - 1);
  }

  lemma LastOfGlue(a: seq<string>, b: seq<string>)
    requires a != [] && |b| == 1 && |b[0]| == 2
    ensures |Glue(a, b)[|Glue(a, b)| - 1]| > 1
  {
  }
}
