/**
 * The pure part of reading `bearer.txt` and `proxy.txt` (bot.js:30-48): the file
 * text is split on every '\n', each piece is trimmed as `String.prototype.trim`
 * does, and empty pieces are dropped.
 */
module Lines {

  /** The characters `trim` removes: ECMAScript WhiteSpace and LineTerminator code points. */
  predicate IsSpace(c: char) {
    || c == ' ' || c == '\t' || c == '\n' || c == '\r'
    || c == '\U{000B}' || c == '\U{000C}' || c == '\U{00A0}' || c == '\U{FEFF}'
    || c == '\U{1680}' || ('\U{2000}' <= c <= '\U{200A}')
    || c == '\U{2028}' || c == '\U{2029}' || c == '\U{202F}' || c == '\U{205F}' || c == '\U{3000}'
  }

  predicate AllSpace(s: string) {
    forall k :: 0 <= k < |s| ==> IsSpace(s[k])
  }

  /** A string `trim` leaves unchanged: empty, or neither end is white space. */
  predicate IsTrimmed(s: string) {
    s == [] || (!IsSpace(s[0]) && !IsSpace(s[|s| - 1]))
  }

  /** Length of the white-space run at the start of `s`. */
  function LeadingSpace(s: string): (n: nat)
    ensures n <= |s|
    ensures forall k :: 0 <= k < n ==> IsSpace(s[k])
    ensures n < |s| ==> !IsSpace(s[n])
  {
    if s == [] || !IsSpace(s[0]) then 0
    else
      var m := LeadingSpace(s[1..]);
      assert forall k :: 1 <= k < 1 + m ==> s[k] == s[1..][k - 1];
      1 + m
  }

  /** Length of the white-space run at the end of `s`. */
  function TrailingSpace(s: string): (n: nat)
    ensures n <= |s|
    ensures forall k :: |s| - n <= k < |s| ==> IsSpace(s[k])
    ensures n < |s| ==> !IsSpace(s[|s| - 1 - n])
  {
    if s == [] || !IsSpace(s[|s| - 1]) then 0
    else
      var m := TrailingSpace(s[..|s| - 1]);
      1 + m
  }

  /** `String.prototype.trim`: drop white space at both ends. */
  function Trim(s: string): (r: string)
    ensures IsTrimmed(r)
    ensures r == [] <==> AllSpace(s)
    ensures LeadingSpace(s) + |r| <= |s|
    ensures forall k :: 0 <= k < |r| ==> r[k] == s[LeadingSpace(s) + k]
  {
    var a := LeadingSpace(s);
    if a == |s| then []
    else
      var b := |s| - TrailingSpace(s);
      assert a < b;
      s[a..b]
  }

  /** `s.split('\n')`: k separators give k + 1 pieces, none containing '\n'. */
  function Split(s: string): (pieces: seq<string>)
    ensures |pieces| >= 1
    ensures forall k :: 0 <= k < |pieces| ==> '\n' !in pieces[k]
  {
    if s == [] then [[]]
    else
      var rest := Split(s[1..]);
      if s[0] == '\n' then [[]] + rest
      else [[s[0]] + rest[0]] + rest[1..]
  }

  /** The inverse of `Split`: the pieces joined with '\n'. */
  function Join(pieces: seq<string>): string
    requires |pieces| >= 1
  {
    if |pieces| == 1 then pieces[0] else pieces[0] + "\n" + Join(pieces[1..])
  }

  /** Lines written one per row, as a token or proxy file holds them; no lines is the empty file. */
  function Unlines(lines: seq<string>): string {
    if lines == [] then "" else Join(lines)
  }

  function TrimAll(pieces: seq<string>): (r: seq<string>)
    ensures |r| == |pieces|
    ensures forall k :: 0 <= k < |r| ==> r[k] == Trim(pieces[k])
  {
    seq(|pieces|, k requires 0 <= k < |pieces| => Trim(pieces[k]))
  }

  function NonEmpty(pieces: seq<string>): (r: seq<string>)
    ensures |r| <= |pieces|
    ensures forall k :: 0 <= k < |r| ==> r[k] != [] && r[k] in pieces
  {
    if pieces == [] then []
    else if pieces[0] == [] then NonEmpty(pieces[1..])
    else [pieces[0]] + NonEmpty(pieces[1..])
  }

  /** A well-formed entry of a token or proxy file. */
  predicate IsEntry(line: string) {
    line != [] && IsTrimmed(line) && '\n' !in line
  }

  /** `data.split('\n').map(line => line.trim()).filter(line => line.length > 0)` (bot.js:33, 43). */
  function ParseLines(text: string): (entries: seq<string>)
    ensures forall k :: 0 <= k < |entries| ==> entries[k] != [] && IsTrimmed(entries[k])
    ensures |entries| <= |Split(text)|
  {
    NonEmpty(TrimAll(Split(text)))
  }

  // ---------------------------------------------------------------------------
  // Properties

  /** `Trim` is characterised by its result alone: any string that is white space,
      then a trimmed middle, then white space, trims to that middle. */
  lemma TrimIsUnique(p: string, m: string, q: string)
    requires AllSpace(p) && AllSpace(q) && IsTrimmed(m)
    ensures Trim(p + m + q) == m
  {
    var s := p + m + q;
    if m == [] {
      assert AllSpace(s) by {
        forall k | 0 <= k < |s| ensures IsSpace(s[k]) {
          if k < |p| { assert s[k] == p[k]; } else { assert s[k] == q[k - |p|]; }
        }
      }
    } else {
      assert s[|p|] == m[0];
      assert s[|s| - 1 - |q|] == m[|m| - 1];
      var a := LeadingSpace(s);
      assert a == |p|;
      var t := TrailingSpace(s);
      assert t == |q|;
      assert s[a..|s| - t] == m;
    }
  }

  /** Trimming a trimmed string changes nothing. */
  lemma TrimTrimmed(m: string)
    requires IsTrimmed(m)
    ensures Trim(m) == m
  {
    TrimIsUnique([], m, []);
    assert [] + m + [] == m;
  }

  lemma {:induction false} SplitNoSeparator(x: string)
    requires '\n' !in x
    ensures Split(x) == [x]
    decreases |x|
  {
    if x != [] {
      SplitNoSeparator(x[1..]);
      assert [x[0]] + x[1..] == x;
    }
  }

  lemma {:induction false} SplitAtSeparator(x: string, y: string)
    requires '\n' !in x
    ensures Split(x + "\n" + y) == [x] + Split(y)
    decreases |x|
  {
    var s := x + "\n" + y;
    if x == [] {
      assert s[1..] == y;
    } else {
      assert s[1..] == x[1..] + "\n" + y;
      SplitAtSeparator(x[1..], y);
      assert [x[0]] + x[1..] == x;
    }
  }

  /** Joining the pieces of a split gives back the text. */
  lemma {:induction false} JoinSplit(s: string)
    ensures Join(Split(s)) == s
    decreases |s|
  {
    if s != [] {
      JoinSplit(s[1..]);
      var rest := Split(s[1..]);
      if s[0] == '\n' {
        assert ([[]] + rest)[1..] == rest;
        assert s == [s[0]] + s[1..];
      } else {
        var head := [s[0]] + rest[0];
        var pieces := [head] + rest[1..];
        if |rest| == 1 {
          assert s == [s[0]] + s[1..];
        } else {
          assert pieces[1..] == rest[1..];
          assert Join(rest) == rest[0] + "\n" + Join(rest[1..]);
          assert s == [s[0]] + s[1..];
        }
      }
    }
  }

  /** Splitting joined lines that hold no '\n' gives back the lines. */
  lemma {:induction false} SplitJoin(pieces: seq<string>)
    requires |pieces| >= 1
    requires forall k :: 0 <= k < |pieces| ==> '\n' !in pieces[k]
    ensures Split(Join(pieces)) == pieces
    decreases |pieces|
  {
    if |pieces| == 1 {
      SplitNoSeparator(pieces[0]);
    } else {
      SplitJoin(pieces[1..]);
      SplitAtSeparator(pieces[0], Join(pieces[1..]));
      assert [pieces[0]] + pieces[1..] == pieces;
    }
  }

  lemma {:induction false} NonEmptyKeepsEntries(pieces: seq<string>)
    requires forall k :: 0 <= k < |pieces| ==> pieces[k] != []
    ensures NonEmpty(pieces) == pieces
    decreases |pieces|
  {
    if pieces != [] {
      NonEmptyKeepsEntries(pieces[1..]);
      assert [pieces[0]] + pieces[1..] == pieces;
    }
  }

  /** The filter keeps exactly the non-empty lines. */
  lemma {:induction false} NonEmptyMembers(pieces: seq<string>, x: string)
    ensures x in NonEmpty(pieces) <==> x in pieces && x != []
    decreases |pieces|
  {
    if pieces != [] {
      NonEmptyMembers(pieces[1..], x);
      assert pieces == [pieces[0]] + pieces[1..];
    }
  }

  /** Reading a file written one entry per line gives back exactly those entries, in order. */
  lemma ParseUnlines(entries: seq<string>)
    requires forall k :: 0 <= k < |entries| ==> IsEntry(entries[k])
    ensures ParseLines(Unlines(entries)) == entries
  {
    if entries == [] {
      assert Split("") == [[]];
      assert TrimAll([[]]) == [[]];
    } else {
      SplitJoin(entries);
      assert Split(Unlines(entries)) == entries;
      TrimAllTrimmed(entries);
      NonEmptyKeepsEntries(entries);
      assert ParseLines(Unlines(entries)) == NonEmpty(TrimAll(entries));
    }
  }

  /** The filter distributes over concatenation: it keeps the lines of each part, in
      order. */
  lemma {:induction false} NonEmptyAppend(a: seq<string>, b: seq<string>)
    ensures NonEmpty(a + b) == NonEmpty(a) + NonEmpty(b)
    decreases |a|
  {
    if a == [] {
      assert a + b == b;
    } else {
      assert (a + b)[1..] == a[1..] + b;
      NonEmptyAppend(a[1..], b);
    }
  }

  /** A single line is kept exactly when it is not empty. */
  lemma NonEmptySingle(x: string)
    ensures NonEmpty([x]) == if x == [] then [] else [x]
  {
    assert [x][1..] == [];
  }

  /** Reading a file of arbitrary lines: the trimmed lines, with the empty ones
      dropped, in file order. */
  lemma ParseJoined(lines: seq<string>)
    requires forall k :: 0 <= k < |lines| ==> '\n' !in lines[k]
    ensures ParseLines(Unlines(lines)) == NonEmpty(TrimAll(lines))
  {
    if lines == [] {
      assert Split("") == [[]];
      assert TrimAll([[]]) == [[]];
    } else {
      SplitJoin(lines);
    }
  }

  /** The entries of a file are those of its first lines followed by those of the
      rest: reading never reorders entries, whatever blank lines lie between them. */
  lemma ParseLinesAppend(a: seq<string>, b: seq<string>)
    requires forall k :: 0 <= k < |a| ==> '\n' !in a[k]
    requires forall k :: 0 <= k < |b| ==> '\n' !in b[k]
    ensures ParseLines(Unlines(a + b)) == ParseLines(Unlines(a)) + ParseLines(Unlines(b))
  {
    NoSeparatorAppend(a, b);
    ParseJoined(a + b);
    ParseJoined(a);
    ParseJoined(b);
    TrimAllAppend(a, b);
    NonEmptyAppend(TrimAll(a), TrimAll(b));
  }

  lemma NoSeparatorAppend(a: seq<string>, b: seq<string>)
    requires forall k :: 0 <= k < |a| ==> '\n' !in a[k]
    requires forall k :: 0 <= k < |b| ==> '\n' !in b[k]
    ensures forall k :: 0 <= k < |a + b| ==> '\n' !in (a + b)[k]
  {
    forall k | 0 <= k < |a + b| ensures '\n' !in (a + b)[k] {
      if k < |a| { assert (a + b)[k] == a[k]; } else { assert (a + b)[k] == b[k - |a|]; }
    }
  }

  lemma TrimAllAppend(a: seq<string>, b: seq<string>)
    ensures TrimAll(a + b) == TrimAll(a) + TrimAll(b)
  {
    assert forall k :: 0 <= k < |a + b| ==> TrimAll(a + b)[k] == (TrimAll(a) + TrimAll(b))[k];
  }

  lemma TrimAllTrimmed(lines: seq<string>)
    requires forall k :: 0 <= k < |lines| ==> IsTrimmed(lines[k])
    ensures TrimAll(lines) == lines
  {
    var trimmed := TrimAll(lines);
    forall k | 0 <= k < |lines| ensures trimmed[k] == lines[k] {
      TrimTrimmed(lines[k]);
    }
  }

  /** A file of blank or white-space-only lines yields no entries; an empty token
      file therefore gives an empty account list. */
  lemma BlankFileHasNoEntries(text: string)
    requires AllSpace(text)
    ensures ParseLines(text) == []
  {
    var pieces := Split(text);
    JoinSplit(text);
    forall k | 0 <= k < |pieces| ensures Trim(pieces[k]) == [] {
      PieceOfSpace(pieces, k);
    }
    NonEmptyOfBlanks(TrimAll(pieces));
  }

  lemma {:induction false} PieceOfSpace(pieces: seq<string>, k: nat)
    requires |pieces| >= 1 && k < |pieces|
    requires AllSpace(Join(pieces))
    ensures AllSpace(pieces[k])
    decreases |pieces|
  {
    if |pieces| > 1 {
      var j := Join(pieces);
      assert j == pieces[0] + "\n" + Join(pieces[1..]);
      if k == 0 {
        assert forall i :: 0 <= i < |pieces[0]| ==> pieces[0][i] == j[i];
      } else {
        var off := |pieces[0]| + 1;
        assert forall i :: 0 <= i < |Join(pieces[1..])| ==> Join(pieces[1..])[i] == j[off + i];
        PieceOfSpace(pieces[1..], k - 1);
      }
    }
  }

  lemma {:induction false} NonEmptyOfBlanks(pieces: seq<string>)
    requires forall k :: 0 <= k < |pieces| ==> pieces[k] == []
    ensures NonEmpty(pieces) == []
    decreases |pieces|
  {
    if pieces != [] {
      NonEmptyOfBlanks(pieces[1..]);
    }
  }
}
