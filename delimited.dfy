/**
 * Texts made of items each followed by a terminator, the shape of every line
 * of the evaluation report (`seq + ';'`, `'{:.02f}; '`), and the reader that
 * recovers the items.
 */
module Delimited {
  import opened Results

  /** Each item followed by `t`, in order. */
  function Terminated(items: seq<string>, t: string): string {
    if items == [] then [] else items[0] + t + Terminated(items[1..], t)
  }

  /** The index of the first `c` in `s`. */
  function IndexOf(s: string, c: char): (r: Option<nat>)
    ensures r.Some? ==> r.value < |s| && s[r.value] == c && c !in s[..r.value]
    ensures r.None? <==> c !in s
  {
    if s == [] then None
    else if s[0] == c then Some(0)
    else match IndexOf(s[1..], c)
      case None => None
      case Some(i) => assert s[..i + 1] == [s[0]] + s[1..][..i]; Some(i + 1)
  }

  /** The part of `s` before its first `c` and the part after it. */
  function Cut(s: string, c: char): Option<(string, string)> {
    match IndexOf(s, c)
    case None => None
    case Some(i) => Some((s[..i], s[i + 1..]))
  }

  /** Reads a text of items each followed by `t`; None when the text is not of that shape. */
  function SplitTerminated(s: string, t: string): Option<seq<string>>
    requires |t| > 0
    decreases |s|
  {
    match IndexOf(s, t[0])
    case None => if s == [] then Some([]) else None
    case Some(i) =>
      if i + |t| <= |s| && s[i..i + |t|] == t then Prepend(s[..i], SplitTerminated(s[i + |t|..], t))
      else None
  }

  /** `x` in front of the items read, when the rest was read. */
  function Prepend(x: string, r: Option<seq<string>>): Option<seq<string>> {
    match r
    case None => None
    case Some(rest) => Some([x] + rest)
  }

  lemma {:induction false} TerminatedSnoc(items: seq<string>, x: string, t: string)
    ensures Terminated(items + [x], t) == Terminated(items, t) + x + t
  {
    if items == [] {
      assert items + [x] == [x];
      assert [x][1..] == [];
    } else {
      assert (items + [x])[1..] == items[1..] + [x];
      TerminatedSnoc(items[1..], x, t);
    }
  }

  /** A character absent from every item and from the terminator is absent from the text. */
  lemma {:induction false} TerminatedAvoids(items: seq<string>, t: string, c: char)
    requires c !in t && forall i :: 0 <= i < |items| ==> c !in items[i]
    ensures c !in Terminated(items, t)
  {
    if items != [] {
      TerminatedAvoids(items[1..], t, c);
      assert c !in items[0];
    }
  }

  lemma IndexOfFirst(a: string, b: string, c: char)
    requires c !in a && b != [] && b[0] == c
    ensures IndexOf(a + b, c) == Some(|a|)
  {
    var s := a + b;
    assert s[|a|] == c;
    assert s[..|a|] == a;
  }

  lemma CutFirst(a: string, b: string, c: char)
    requires c !in a
    ensures Cut(a + [c] + b, c) == Some((a, b))
  {
    IndexOfFirst(a, [c] + b, c);
    assert a + [c] + b == a + ([c] + b);
    assert (a + [c] + b)[..|a|] == a;
    assert (a + [c] + b)[|a| + 1..] == b;
  }

  /**
   * Reading a terminated text gives back its items, provided no item contains
   * the terminator's first character.
   */
  lemma {:induction false} SplitTerminatedRoundTrip(items: seq<string>, t: string)
    requires |t| > 0
    requires forall i :: 0 <= i < |items| ==> t[0] !in items[i]
    ensures SplitTerminated(Terminated(items, t), t) == Some(items)
  {
    if items != [] {
      var a := items[0];
      var rest := Terminated(items[1..], t);
      var s := Terminated(items, t);
      assert s == a + (t + rest);
      IndexOfFirst(a, t + rest, t[0]);
      assert s[|a|..|a| + |t|] == t;
      assert s[..|a|] == a;
      assert s[|a| + |t|..] == rest;
      SplitTerminatedRoundTrip(items[1..], t);
      assert [a] + items[1..] == items;
    }
  }

  /** One more item in front: the item, its terminator, then the rest. */
  lemma TerminatedCons(x: string, rest: seq<string>, t: string)
    ensures Terminated([x] + rest, t) == x + t + Terminated(rest, t)
  {
    assert ([x] + rest)[1..] == rest;
  }

  /** A text that holds `t` at position `i` is its part before, `t`, and its part after. */
  lemma SplitAround(s: string, i: nat, t: string)
    requires i + |t| <= |s| && s[i..i + |t|] == t
    ensures s == s[..i] + t + s[i + |t|..]
  {
    assert s == s[..i] + s[i..i + |t|] + s[i + |t|..];
  }

  /** A text accepted by the reader, split at its first item. */
  lemma {:induction false} SplitTerminatedHead(s: string, t: string, items: seq<string>)
    returns (i: nat, rest: seq<string>)
    requires |t| > 0 && SplitTerminated(s, t) == Some(items) && s != []
    ensures i + |t| <= |s| && s[i..i + |t|] == t
    ensures SplitTerminated(s[i + |t|..], t) == Some(rest)
    ensures items == [s[..i]] + rest
  {
    i := IndexOf(s, t[0]).value;
    assert SplitTerminated(s, t) == Prepend(s[..i], SplitTerminated(s[i + |t|..], t));
    rest := SplitTerminated(s[i + |t|..], t).value;
  }

  /** Conversely, whatever the reader accepts is exactly the terminated text of what it returns. */
  lemma {:induction false} SplitTerminatedExact(s: string, t: string, items: seq<string>)
    requires |t| > 0 && SplitTerminated(s, t) == Some(items)
    ensures Terminated(items, t) == s
    decreases |s|
  {
    if s != [] {
      var i, rest := SplitTerminatedHead(s, t, items);
      SplitTerminatedExact(s[i + |t|..], t, rest);
      TerminatedCons(s[..i], rest, t);
      SplitAround(s, i, t);
    }
  }
}
