/**
 * The pieces of Rust's standard library the command protocol relies on:
 * the order `BTreeMap`/`BTreeSet` keep their `String` keys in, `str::split(' ')`,
 * and the decimal rendering of a `usize` by `format!`.
 */
module Text {

  // ---------------------------------------------------------------------------
  // Ordering of names
  // ---------------------------------------------------------------------------

  /** `a <= b` in the order Rust derives for `String`: lexicographic on characters. */
  predicate Below(a: string, b: string)
  {
    |a| == 0 || (|b| > 0 && (a[0] < b[0] || (a[0] == b[0] && Below(a[1..], b[1..]))))
  }

  lemma {:induction false} BelowReflexive(a: string)
    ensures Below(a, a)
  {
    if |a| > 0 {
      BelowReflexive(a[1..]);
    }
  }

  lemma {:induction false} BelowAntisymmetric(a: string, b: string)
    requires Below(a, b) && Below(b, a)
    ensures a == b
  {
    if |a| > 0 {
      BelowAntisymmetric(a[1..], b[1..]);
      assert a == [a[0]] + a[1..] && b == [b[0]] + b[1..];
    }
  }

  lemma {:induction false} BelowTransitive(a: string, b: string, c: string)
    requires Below(a, b) && Below(b, c)
    ensures Below(a, c)
  {
    if |a| > 0 && a[0] == b[0] && b[0] == c[0] {
      BelowTransitive(a[1..], b[1..], c[1..]);
    }
  }

  lemma {:induction false} BelowTotal(a: string, b: string)
    ensures Below(a, b) || Below(b, a)
  {
    if |a| > 0 && |b| > 0 && a[0] == b[0] {
      BelowTotal(a[1..], b[1..]);
    }
  }

  /** `m` is the smallest name of `s`. */
  predicate IsLeast(m: string, s: set<string>)
  {
    m in s && forall x :: x in s ==> Below(m, x)
  }

  lemma {:induction false} LeastExists(s: set<string>)
    requires s != {}
    ensures exists m :: IsLeast(m, s)
    decreases s
  {
    var y :| y in s;
    if s == {y} {
      BelowReflexive(y);
      assert IsLeast(y, s);
    } else {
      LeastExists(s - {y});
      var m :| IsLeast(m, s - {y});
      BelowTotal(y, m);
      if Below(y, m) {
        forall x | x in s
          ensures Below(y, x)
        {
          if x == y {
            BelowReflexive(y);
          } else {
            BelowTransitive(y, m, x);
          }
        }
        assert IsLeast(y, s);
      } else {
        assert IsLeast(m, s);
      }
    }
  }

  /** The names of `s` in the order a `BTreeSet<String>` iterates them: ascending, each once. */
  ghost function Ascending(s: set<string>): (r: seq<string>)
    ensures |r| == |s|
    ensures forall x :: x in r <==> x in s
    ensures forall i, j :: 0 <= i < j < |r| ==> Below(r[i], r[j]) && r[i] != r[j]
    decreases s
  {
    if s == {} then []
    else
      LeastExists(s);
      var m :| IsLeast(m, s);
      [m] + Ascending(s - {m})
  }

  /** Iterating from the least name: the ascending order starts with it. */
  lemma AscendingFromLeast(s: set<string>, m: string)
    requires IsLeast(m, s)
    ensures Ascending(s) == [m] + Ascending(s - {m})
  {
    var r := Ascending(s);
    assert r[0] in s;
    forall x | x in s
      ensures Below(r[0], x)
    {
      if x == r[0] {
        BelowReflexive(x);
      } else {
        var j :| 0 <= j < |r| && r[j] == x;
      }
    }
    BelowAntisymmetric(m, r[0]);
  }

  /** A walk from least to greatest over `all` has visited `visited` and has `rest` still to go. */
  ghost predicate Walked(all: set<string>, visited: seq<string>, rest: set<string>)
  {
    Ascending(all) == visited + Ascending(rest)
  }

  lemma WalkStart(all: set<string>)
    ensures Walked(all, [], all)
  {
  }

  /** One step of the walk: the least remaining name moves to the visited prefix. */
  lemma WalkStep(all: set<string>, visited: seq<string>, rest: set<string>, m: string)
    requires Walked(all, visited, rest)
    requires IsLeast(m, rest)
    ensures Walked(all, visited + [m], rest - {m})
  {
    var tail := Ascending(rest - {m});
    AscendingFromLeast(rest, m);
    assert Ascending(all) == visited + ([m] + tail);
    assert visited + ([m] + tail) == (visited + [m]) + tail;
  }

  /** The names still to walk belong to the walked set. */
  lemma WalkRemaining(all: set<string>, visited: seq<string>, rest: set<string>, m: string)
    requires Walked(all, visited, rest)
    requires m in rest
    ensures m in all
  {
  }

  /** A finished walk visited every name of `all`, in ascending order. */
  lemma WalkDone(all: set<string>, visited: seq<string>)
    requires Walked(all, visited, {})
    ensures visited == Ascending(all)
  {
  }

  // ---------------------------------------------------------------------------
  // Words of a command line
  // ---------------------------------------------------------------------------

  predicate SpaceFree(w: string)
  {
    forall i :: 0 <= i < |w| ==> w[i] != ' '
  }

  /** `str::split(' ')`: the fields between single spaces; there is always at least one. */
  function Split(line: string): (words: seq<string>)
    ensures |words| >= 1
  {
    if |line| == 0 then [""]
    else
      var rest := Split(line[1..]);
      if line[0] == ' ' then [""] + rest
      else [[line[0]] + rest[0]] + rest[1..]
  }

  /** The fields put back together with single spaces. */
  function Join(words: seq<string>): string
    requires |words| >= 1
  {
    if |words| == 1 then words[0] else words[0] + " " + Join(words[1..])
  }

  /** `mots.next().unwrap_or_default()` for the `i`-th field: a missing field is empty. */
  function Field(words: seq<string>, i: nat): string
  {
    if i < |words| then words[i] else ""
  }

  /** Splitting loses nothing: the fields hold no space, and joining them gives the line back. */
  lemma {:induction false} SplitJoin(line: string)
    ensures Join(Split(line)) == line
    ensures forall i :: 0 <= i < |Split(line)| ==> SpaceFree(Split(line)[i])
  {
    if |line| > 0 {
      SplitJoin(line[1..]);
      var rest := Split(line[1..]);
      if line[0] == ' ' {
        assert ([""] + rest)[1..] == rest;
        assert line == [line[0]] + line[1..];
      } else {
        var words := Split(line);
        assert words[0] == [line[0]] + rest[0];
        if |rest| == 1 {
          assert line == [line[0]] + rest[0];
        } else {
          assert words[1..] == rest[1..];
          assert Join(rest) == rest[0] + " " + Join(rest[1..]);
          assert line == [line[0]] + line[1..];
        }
        forall i | 0 <= i < |words|
          ensures SpaceFree(words[i])
        {
          if i > 0 {
            assert words[i] == rest[i];
          }
        }
      }
    }
  }

  lemma {:induction false} SplitSpaceFree(w: string)
    requires SpaceFree(w)
    ensures Split(w) == [w]
  {
    if |w| > 0 {
      SplitSpaceFree(w[1..]);
      assert w == [w[0]] + w[1..];
    }
  }

  lemma {:induction false} SplitFirstWord(w: string, tail: string)
    requires SpaceFree(w)
    ensures Split(w + " " + tail) == [w] + Split(tail)
  {
    var line := w + " " + tail;
    if |w| == 0 {
      assert line == " " + tail && line[1..] == tail;
    } else {
      assert line[1..] == w[1..] + " " + tail;
      SplitFirstWord(w[1..], tail);
      assert w == [w[0]] + w[1..];
    }
  }

  /** Joining space-free fields and splitting again gives the same fields. */
  lemma {:induction false} JoinSplit(words: seq<string>)
    requires |words| >= 1
    requires forall i :: 0 <= i < |words| ==> SpaceFree(words[i])
    ensures Split(Join(words)) == words
  {
    if |words| == 1 {
      SplitSpaceFree(words[0]);
    } else {
      JoinSplit(words[1..]);
      SplitFirstWord(words[0], Join(words[1..]));
      assert words == [words[0]] + words[1..];
    }
  }

  lemma ThreeWordsSpaceFree(a: string, b: string, c: string, extra: seq<string>)
    requires SpaceFree(a) && SpaceFree(b) && SpaceFree(c)
    requires forall i :: 0 <= i < |extra| ==> SpaceFree(extra[i])
    ensures forall i :: 0 <= i < |[a, b, c] + extra| ==> SpaceFree(([a, b, c] + extra)[i])
  {
    var words := [a, b, c] + extra;
    forall i | 0 <= i < |words|
      ensures SpaceFree(words[i])
    {
      if i >= 3 {
        assert words[i] == extra[i - 3];
      }
    }
  }

  /** Three space-free words, then any space-free words: splitting their join gives them back. */
  lemma SplitThreeWords(a: string, b: string, c: string, extra: seq<string>)
    requires SpaceFree(a) && SpaceFree(b) && SpaceFree(c)
    requires forall i :: 0 <= i < |extra| ==> SpaceFree(extra[i])
    ensures Split(Join([a, b, c] + extra)) == [a, b, c] + extra
  {
    ThreeWordsSpaceFree(a, b, c, extra);
    JoinSplit([a, b, c] + extra);
  }

  // ---------------------------------------------------------------------------
  // Decimal rendering of a count
  // ---------------------------------------------------------------------------

  predicate IsDigit(ch: char)
  {
    '0' <= ch <= '9'
  }

  function DigitChar(d: nat): (ch: char)
    requires d < 10
    ensures IsDigit(ch) && DigitValue(ch) == d
  {
    (d + '0' as int) as char
  }

  /** How `format!("{}", n)` renders a `usize`: decimal digits without leading zero. */
  function NatToString(n: nat): (s: string)
    ensures |s| >= 1
    ensures forall i :: 0 <= i < |s| ==> IsDigit(s[i])
    ensures s[0] == '0' ==> n == 0 && s == "0"
    decreases n
  {
    if n < 10 then [DigitChar(n)] else NatToString(n / 10) + [DigitChar(n % 10)]
  }

  /** The number a string of decimal digits denotes. */
  function DigitsValue(s: string): nat
    requires forall i :: 0 <= i < |s| ==> IsDigit(s[i])
  {
    if |s| == 0 then 0 else DigitsValue(s[..|s| - 1]) * 10 + DigitValue(s[|s| - 1])
  }

  function DigitValue(ch: char): (d: nat)
    requires IsDigit(ch)
  {
    ch as int - '0' as int
  }

  /** Reading the rendered digits back gives the count. */
  lemma {:induction false} NatToStringRoundTrip(n: nat)
    ensures DigitsValue(NatToString(n)) == n
    decreases n
  {
    var s := NatToString(n);
    if n >= 10 {
      NatToStringRoundTrip(n / 10);
      assert s[..|s| - 1] == NatToString(n / 10);
    }
  }
}
