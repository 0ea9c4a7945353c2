/** `NewlineListOutputParser.parse`: strip the text, split it on the
    two-character sequence backslash + `n` (not on a newline character), and
    strip every piece. */
module NewlineListParser {
  import opened Text

  /** The separator: a backslash followed by the letter `n`. */
  const Sep: string := ['\\', 'n']

  /** The separator occurs at position `i` of `s`. */
  predicate SepAt(s: string, i: int) {
    0 <= i && i + 1 < |s| && s[i] == '\\' && s[i + 1] == 'n'
  }

  predicate FreeOfSep(s: string) {
    forall i :: 0 <= i < |s| ==> !SepAt(s, i)
  }

  /** The number of positions at which the separator starts. */
  function Occurrences(s: string): nat
    decreases |s|
  {
    if |s| < 2 then 0
    else (if SepAt(s, 0) then 1 else 0) + Occurrences(s[1..])
  }

  /** `s.split("\\n")`: cut at every separator, scanning from the left. */
  function Split(s: string): (r: seq<string>)
    ensures |r| >= 1
    ensures |r[0]| <= |s| && r[0] == s[..|r[0]|]
    decreases |s|
  {
    if |s| < 2 then [s]
    else if SepAt(s, 0) then [""] + Split(s[2..])
    else
      var rest := Split(s[1..]);
      assert [s[0]] + rest[0] == s[..|rest[0]| + 1];
      [[s[0]] + rest[0]] + rest[1..]
  }

  /** `parse(text)`. */
  function Parse(text: string): (r: seq<string>)
    ensures |r| == |Split(Strip(text))| >= 1
    ensures forall i :: 0 <= i < |r| ==> IsStripped(r[i])
  {
    StripEach(Split(Strip(text)))
  }

  /** `[item.strip() for item in pieces]`. */
  function StripEach(pieces: seq<string>): (r: seq<string>)
    ensures |r| == |pieces|
    ensures forall i :: 0 <= i < |r| ==> IsStripped(r[i])
  {
    seq(|pieces|, i requires 0 <= i < |pieces| => Strip(pieces[i]))
  }

  /** Stripping items that are already stripped changes nothing. */
  lemma StripEachStripped(items: seq<string>)
    requires forall k :: 0 <= k < |items| ==> IsStripped(items[k])
    ensures StripEach(items) == items
  {
  }

  // ---------------------------------------------------------------------
  // Split
  // ---------------------------------------------------------------------

  /** Joining the pieces with the separator gives the text back. */
  lemma {:induction false} SplitJoin(s: string)
    ensures Join(Sep, Split(s)) == s
    decreases |s|
  {
    if |s| < 2 {
    } else if SepAt(s, 0) {
      SplitJoin(s[2..]);
      JoinEmptyHead(Sep, Split(s[2..]));
      assert s == Sep + s[2..];
    } else {
      SplitJoin(s[1..]);
      JoinExtendHead(Sep, [s[0]], Split(s[1..]));
      HeadTail(s);
    }
  }

  /** No piece contains the separator. */
  lemma {:induction false} SplitPiecesFree(s: string)
    ensures forall k :: 0 <= k < |Split(s)| ==> FreeOfSep(Split(s)[k])
    decreases |s|
  {
    if |s| < 2 {
    } else if SepAt(s, 0) {
      SplitPiecesFree(s[2..]);
      var r := Split(s);
      assert forall k :: 1 <= k < |r| ==> r[k] == Split(s[2..])[k - 1];
    } else {
      var rest := Split(s[1..]);
      SplitPiecesFree(s[1..]);
      var head := [s[0]] + rest[0];
      assert forall i :: 1 <= i < |head| ==> (SepAt(head, i) <==> SepAt(rest[0], i - 1));
      assert !SepAt(head, 0) by {
        if |head| >= 2 {
          assert head[1] == s[1];
        }
      }
    }
  }

  /** One piece more than there are separators. */
  lemma {:induction false} SplitCount(s: string)
    ensures |Split(s)| == Occurrences(s) + 1
    decreases |s|
  {
    if |s| < 2 {
    } else if SepAt(s, 0) {
      SplitCount(s[2..]);
      assert s[1..][1..] == s[2..];
      assert !SepAt(s[1..], 0);
    } else {
      SplitCount(s[1..]);
    }
  }

  /** Splitting undoes joining pieces that hold no separator. */
  lemma {:induction false} JoinSplit(parts: seq<string>)
    requires |parts| >= 1
    requires forall k :: 0 <= k < |parts| ==> FreeOfSep(parts[k])
    ensures Split(Join(Sep, parts)) == parts
    decreases |parts|, |parts[0]|
  {
    if |parts| == 1 {
      SplitFree(parts[0]);
    } else {
      var p := parts[0];
      var rest := parts[1..];
      var tail := Join(Sep, rest);
      var s := Join(Sep, parts);
      assert s == p + Sep + tail;
      if p == [] {
        assert (Sep + tail)[2..] == tail;
        JoinSplit(rest);
        HeadTail(parts);
      } else {
        var shorter := [p[1..]] + rest;
        HeadStep(p, rest);
        assert forall k :: 1 <= k < |shorter| ==> shorter[k] == parts[k];
        JoinSplit(shorter);
        HeadTail(p);
        HeadTail(parts);
      }
    }
  }

  /** Joining a non-empty first piece: the text does not start with the
      separator, and dropping its first character drops the piece's. */
  lemma HeadStep(p: string, rest: seq<string>)
    requires p != [] && FreeOfSep(p) && |rest| >= 1
    ensures var s := p + Sep + Join(Sep, rest);
      && |s| >= 2 && !SepAt(s, 0) && s[0] == p[0]
      && FreeOfSep(p[1..])
      && s[1..] == Join(Sep, [p[1..]] + rest)
  {
    var tail := Join(Sep, rest);
    var s := p + Sep + tail;
    assert !SepAt(s, 0) by {
      if |p| >= 2 { assert s[1] == p[1]; assert !SepAt(p, 0); }
      else { assert s[1] == '\\'; }
    }
    assert FreeOfSep(p[1..]) by {
      forall i | 0 <= i < |p[1..]| ensures !SepAt(p[1..], i) {
        assert !SepAt(p, i + 1);
      }
    }
    assert ([p[1..]] + rest)[1..] == rest;
    assert s[1..] == p[1..] + Sep + tail;
  }

  /** A text without a separator is one piece. */
  lemma {:induction false} SplitFree(s: string)
    requires FreeOfSep(s)
    ensures Split(s) == [s]
    decreases |s|
  {
    if |s| >= 2 {
      assert !SepAt(s, 0);
      assert FreeOfSep(s[1..]) by {
        forall i | 0 <= i < |s[1..]| ensures !SepAt(s[1..], i) {
          assert !SepAt(s, i + 1);
        }
      }
      SplitFree(s[1..]);
      assert [s[0]] + s[1..] == s;
    }
  }

  // ---------------------------------------------------------------------
  // Parse
  // ---------------------------------------------------------------------

  /** The item count is one more than the number of separators in the
      stripped text, every item is stripped and free of the separator, and
      the items joined back with the separator, before stripping, are the
      stripped text. */
  lemma ParseShape(text: string)
    ensures var r := Parse(text);
      && |r| == Occurrences(Strip(text)) + 1
      && (forall k :: 0 <= k < |r| ==> FreeOfSep(r[k]))
      && (forall k :: 0 <= k < |r| ==> r[k] == Strip(Split(Strip(text))[k]))
      && Join(Sep, Split(Strip(text))) == Strip(text)
  {
    var pieces := Split(Strip(text));
    SplitCount(Strip(text));
    SplitPiecesFree(Strip(text));
    SplitJoin(Strip(text));
    forall k | 0 <= k < |pieces| ensures FreeOfSep(Strip(pieces[k])) {
      StripKeepsFree(pieces[k]);
    }
  }

  /** Stripping a text cannot create a separator. */
  lemma StripKeepsFree(s: string)
    requires FreeOfSep(s)
    ensures FreeOfSep(Strip(s))
  {
    var t := TrimStart(s);
    SuffixKeepsFree(s, t);
    PrefixKeepsFree(t, TrimEnd(t));
  }

  /** A suffix of a text without the separator has none either. */
  lemma SuffixKeepsFree(s: string, t: string)
    requires FreeOfSep(s) && |t| <= |s| && t == s[|s| - |t|..]
    ensures FreeOfSep(t)
  {
    var k := |s| - |t|;
    forall i | 0 <= i < |t| ensures !SepAt(t, i) {
      assert !SepAt(s, k + i);
      if i + 1 < |t| {
        assert t[i] == s[k + i] && t[i + 1] == s[k + i + 1];
      }
    }
  }

  /** A prefix of a text without the separator has none either. */
  lemma PrefixKeepsFree(t: string, r: string)
    requires FreeOfSep(t) && |r| <= |t| && r == t[..|r|]
    ensures FreeOfSep(r)
  {
    forall i | 0 <= i < |r| ensures !SepAt(r, i) {
      assert !SepAt(t, i);
      if i + 1 < |r| {
        assert r[i] == t[i] && r[i + 1] == t[i + 1];
      }
    }
  }

  /** Parsing the empty text gives one empty item. */
  lemma ParseEmpty()
    ensures Parse("") == [""]
  {
    assert IsStripped("");
    assert Split("") == [""];
    StripEachStripped([""]);
  }

  /** An actual newline character does not separate items. */
  lemma NewlineDoesNotSplit()
    ensures Parse("a\nb") == ["a\nb"]
  {
    var t := "a\nb";
    assert IsStripped(t);
    assert FreeOfSep(t) by {
      forall i | 0 <= i < |t| ensures !SepAt(t, i) {
        assert t[i] != '\\';
      }
    }
    SplitFree(t);
    assert Split(Strip(t)) == [t];
  }

  /** Items that are stripped and hold no separator survive being written
      out with the separator and parsed again. */
  lemma ParseJoin(items: seq<string>)
    requires |items| >= 1
    requires forall k :: 0 <= k < |items| ==> IsStripped(items[k]) && FreeOfSep(items[k])
    ensures Parse(Join(Sep, items)) == items
  {
    var text := Join(Sep, items);
    JoinStripped(items);
    JoinSplit(items);
    assert Strip(text) == text;
    assert Split(Strip(text)) == items;
    StripEachStripped(items);
  }

  /** Joining stripped items with the separator gives a stripped text: its
      ends are either an item's ends or the separator's letters. */
  lemma {:induction false} JoinStripped(items: seq<string>)
    requires |items| >= 1
    requires forall k :: 0 <= k < |items| ==> IsStripped(items[k])
    ensures IsStripped(Join(Sep, items))
    ensures Join(Sep, items) == [] || Join(Sep, items)[0] == (if items[0] == [] then '\\' else items[0][0])
    ensures Join(Sep, items) == [] || !IsSpace(Join(Sep, items)[|Join(Sep, items)| - 1])
    decreases |items|
  {
    if |items| > 1 {
      var tail := Join(Sep, items[1..]);
      JoinStripped(items[1..]);
      assert Join(Sep, items) == items[0] + Sep + tail;
    }
  }
}
