/** Splitting text into lines on a separator predicate, and joining lines back.
    The host's serial monitor splits each received chunk this way before it
    appends the pieces to the transcript, and the serial-monitor page splits its
    transcript string the same way to render one paragraph per line. Like
    Rust's `str::split` and JavaScript's `String.prototype.split`, a string with
    k separators gives exactly k + 1 pieces, empty ones included. */
module Lines {

  /** The number of characters of `s` that `isSep` accepts. */
  function SepCount(s: string, isSep: char -> bool): (n: nat)
    ensures n <= |s|
    decreases |s|
  {
    if |s| == 0 then 0
    else SepCount(s[..|s| - 1], isSep) + (if isSep(s[|s| - 1]) then 1 else 0)
  }

  /** True when no character of `s` is a separator. */
  predicate SepFree(s: string, isSep: char -> bool)
  {
    forall j :: 0 <= j < |s| ==> !isSep(s[j])
  }

  /** One more character of text: a separator starts a new, empty piece; any
      other character extends the last piece. */
  function Extend(pieces: seq<string>, c: char, isSep: char -> bool): seq<string>
    requires |pieces| >= 1
  {
    if isSep(c) then pieces + [""]
    else pieces[..|pieces| - 1] + [pieces[|pieces| - 1] + [c]]
  }

  /** The pieces of `s` between separators, in order. */
  function Split(s: string, isSep: char -> bool): (pieces: seq<string>)
    ensures |pieces| == SepCount(s, isSep) + 1
    ensures forall i :: 0 <= i < |pieces| ==> SepFree(pieces[i], isSep)
    decreases |s|
  {
    if |s| == 0 then [""]
    else Extend(Split(s[..|s| - 1], isSep), s[|s| - 1], isSep)
  }

  /** The pieces joined with `sep` between neighbours. */
  function Join(pieces: seq<string>, sep: char): string
    decreases |pieces|
  {
    if |pieces| == 0 then ""
    else if |pieces| == 1 then pieces[0]
    else Join(pieces[..|pieces| - 1], sep) + [sep] + pieces[|pieces| - 1]
  }

  /** A separator-free string is a single piece. */
  lemma {:induction false} SplitSepFree(s: string, isSep: char -> bool)
    requires SepFree(s, isSep)
    ensures Split(s, isSep) == [s]
    decreases |s|
  {
    if |s| > 0 {
      SplitSepFree(s[..|s| - 1], isSep);
      assert s[..|s| - 1] + [s[|s| - 1]] == s;
    }
  }

  /** `Split` read as one `Extend` step per character. */
  lemma SplitSnoc(t: string, c: char, isSep: char -> bool)
    ensures Split(t + [c], isSep) == Extend(Split(t, isSep), c, isSep)
  {
    assert (t + [c])[..|t|] == t;
  }

  /** Extending, with the last piece written out. */
  lemma ExtendLast(front: seq<string>, last: string, c: char, isSep: char -> bool)
    ensures Extend(front + [last], c, isSep)
            == if isSep(c) then front + [last, ""] else front + [last + [c]]
  {
    var ps := front + [last];
    assert ps[..|ps| - 1] == front;
  }

  /** Extending only ever touches the last piece. */
  lemma ExtendAppend(front: seq<string>, back: seq<string>, c: char, isSep: char -> bool)
    requires |back| >= 1
    ensures Extend(front + back, c, isSep) == front + Extend(back, c, isSep)
  {
    var joined := front + back;
    if !isSep(c) {
      assert joined[..|joined| - 1] == front + back[..|back| - 1];
    }
  }

  /** Splitting at a separator: the pieces of `a + [c] + b` are those of `a`
      followed by those of `b`, so the pieces of `a` are never disturbed. */
  lemma {:induction false} SplitAtSep(a: string, c: char, b: string, isSep: char -> bool)
    requires isSep(c)
    ensures Split(a + [c] + b, isSep) == Split(a, isSep) + Split(b, isSep)
    decreases |b|
  {
    if |b| == 0 {
      assert a + [c] + b == a + [c];
      SplitSnoc(a, c, isSep);
    } else {
      var b', d := b[..|b| - 1], b[|b| - 1];
      assert b == b' + [d];
      assert a + [c] + b == (a + [c] + b') + [d];
      SplitAtSep(a, c, b', isSep);
      SplitSnoc(a + [c] + b', d, isSep);
      SplitSnoc(b', d, isSep);
      ExtendAppend(Split(a, isSep), Split(b', isSep), d, isSep);
    }
  }

  /** Joining the pieces restores the text, provided every separator in it is
      the character `sep` itself. */
  lemma {:induction false} JoinSplit(s: string, isSep: char -> bool, sep: char)
    requires forall j :: 0 <= j < |s| && isSep(s[j]) ==> s[j] == sep
    ensures Join(Split(s, isSep), sep) == s
    decreases |s|
  {
    if |s| > 0 {
      var t, c := s[..|s| - 1], s[|s| - 1];
      assert s == t + [c];
      JoinSplit(t, isSep, sep);
      var init := Split(t, isSep);
      if isSep(c) {
        var ps := init + [""];
        assert ps[..|ps| - 1] == init;
      } else {
        var n := |init|;
        var ps := init[..n - 1] + [init[n - 1] + [c]];
        assert ps[..|ps| - 1] == init[..n - 1];
        if n > 1 {
          assert init[..n - 1] == init[..n - 1][..n - 1];
          assert Join(init, sep) == Join(init[..n - 1], sep) + [sep] + init[n - 1];
        }
      }
    }
  }

  /** Splitting joined lines gives the lines back, provided `sep` is a
      separator and no line contains one. */
  lemma {:induction false} SplitJoin(pieces: seq<string>, isSep: char -> bool, sep: char)
    requires |pieces| >= 1 && isSep(sep)
    requires forall i :: 0 <= i < |pieces| ==> SepFree(pieces[i], isSep)
    ensures Split(Join(pieces, sep), isSep) == pieces
    decreases |pieces|
  {
    var n := |pieces|;
    SplitSepFree(pieces[n - 1], isSep);
    if n > 1 {
      var init := pieces[..n - 1];
      SplitJoin(init, isSep, sep);
      SplitAtSep(Join(init, sep), sep, pieces[n - 1], isSep);
      assert init + [pieces[n - 1]] == pieces;
    }
  }
}
