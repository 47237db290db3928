/** The string operations ozinfo2yaml.py relies on, modelled on Python's:
    `str.split()` with no argument, `str.split(sep)` for a one-character separator,
    `int()` on a field, the first field of a csv row, and the path helpers
    `os.path.join` and `os.path.basename`. */
module Text {
  import opened Base

  // ---------------------------------------------------------------------------
  // Whitespace splitting: str.split()
  // ---------------------------------------------------------------------------

  /** Python's `str.isspace()` characters, at which `str.split()` cuts. */
  predicate IsSpace(c: char) {
    var n := c as int;
    (9 <= n <= 13) || (28 <= n <= 32) || n == 0x85 || n == 0xA0 || n == 0x1680
    || (0x2000 <= n <= 0x200A) || n == 0x2028 || n == 0x2029 || n == 0x202F
    || n == 0x205F || n == 0x3000
  }

  /** A field `str.split()` can produce: non-empty, without whitespace. */
  predicate IsWord(w: string) {
    w != [] && forall i :: 0 <= i < |w| ==> !IsSpace(w[i])
  }

  /** The length of the run of non-whitespace characters at the front of `s`. */
  function WordLength(s: string): (n: nat)
    ensures n <= |s|
    ensures forall i :: 0 <= i < n ==> !IsSpace(s[i])
    ensures n < |s| ==> IsSpace(s[n])
  {
    if s == [] || IsSpace(s[0]) then 0 else 1 + WordLength(s[1..])
  }

  /** `s.split()`: the maximal runs of non-whitespace characters of `s`, in order. */
  function Words(s: string): (r: seq<string>)
    ensures forall k :: 0 <= k < |r| ==> IsWord(r[k])
    decreases |s|
  {
    if s == [] then []
    else if IsSpace(s[0]) then Words(s[1..])
    else
      var n := WordLength(s);
      [s[..n]] + Words(s[n..])
  }

  /** Words written out with one space between neighbours. */
  function Unwords(ws: seq<string>): string {
    if ws == [] then [] else if |ws| == 1 then ws[0] else ws[0] + " " + Unwords(ws[1..])
  }

  lemma {:induction false} WordLengthOfWord(w: string, rest: string)
    requires IsWord(w)
    requires rest == [] || IsSpace(rest[0])
    ensures WordLength(w + rest) == |w|
  {
    var s := w + rest;
    assert s[0] == w[0] && !IsSpace(w[0]);
    if |w| == 1 {
      assert s[1..] == rest;
    } else {
      assert s[1..] == w[1..] + rest;
      assert IsWord(w[1..]) by {
        forall i | 0 <= i < |w[1..]| ensures !IsSpace(w[1..][i]) {
          assert w[1..][i] == w[i + 1];
        }
      }
      WordLengthOfWord(w[1..], rest);
    }
  }

  /** Splitting on whitespace undoes joining words with single spaces. */
  lemma {:induction false} WordsUnwords(ws: seq<string>)
    requires forall k :: 0 <= k < |ws| ==> IsWord(ws[k])
    ensures Words(Unwords(ws)) == ws
  {
    if ws == [] {
    } else if |ws| == 1 {
      var w := ws[0];
      WordLengthOfWord(w, []);
      assert w + [] == w;
      assert w[|w|..] == [];
    } else {
      var w, rest := ws[0], Unwords(ws[1..]);
      var s := w + " " + rest;
      WordLengthOfWord(w, " " + rest);
      assert s == w + (" " + rest);
      assert s[..|w|] == w;
      assert s[|w|..] == " " + rest;
      assert (" " + rest)[1..] == rest;
      WordsUnwords(ws[1..]);
    }
  }

  /** Text made only of whitespace (possibly none). */
  predicate IsBlank(s: string) {
    forall i :: 0 <= i < |s| ==> IsSpace(s[i])
  }

  /** Words `ws`, each followed by the whitespace `gaps[k]`. */
  function Layout(ws: seq<string>, gaps: seq<string>): string
    requires |gaps| == |ws|
  {
    if ws == [] then [] else ws[0] + gaps[0] + Layout(ws[1..], gaps[1..])
  }

  /** The gaps of a layout: whitespace after every word, and at least one whitespace
      character between two words. */
  predicate GoodGaps(ws: seq<string>, gaps: seq<string>) {
    |gaps| == |ws|
    && (forall k :: 0 <= k < |ws| ==> IsWord(ws[k]) && IsBlank(gaps[k]))
    && (forall k :: 0 <= k < |ws| - 1 ==> gaps[k] != [])
  }

  lemma GoodGapsTail(ws: seq<string>, gaps: seq<string>)
    requires GoodGaps(ws, gaps) && ws != []
    ensures GoodGaps(ws[1..], gaps[1..])
  {
    forall k | 0 <= k < |ws| - 1
      ensures ws[1..][k] == ws[k + 1] && gaps[1..][k] == gaps[k + 1]
    {
    }
  }

  /** Leading whitespace is dropped. */
  lemma {:induction false} WordsBlankFront(sp: string, s: string)
    requires IsBlank(sp)
    ensures Words(sp + s) == Words(s)
  {
    if sp != [] {
      var t := sp + s;
      assert t[0] == sp[0] && IsSpace(t[0]);
      assert t[1..] == sp[1..] + s;
      assert Words(t) == Words(t[1..]);
      assert IsBlank(sp[1..]) by {
        forall i | 0 <= i < |sp[1..]| ensures IsSpace(sp[1..][i]) {
          assert sp[1..][i] == sp[i + 1];
        }
      }
      WordsBlankFront(sp[1..], s);
    } else {
      assert sp + s == s;
    }
  }

  /** A word followed by a whitespace character is the first field. */
  lemma WordsWordFront(w: string, c: char, s: string)
    requires IsWord(w) && IsSpace(c)
    ensures Words(w + [c] + s) == [w] + Words(s)
  {
    var t := w + [c] + s;
    assert t == w + ([c] + s);
    WordLengthOfWord(w, [c] + s);
    assert t[..|w|] == w;
    assert t[|w|..] == [c] + s;
    assert ([c] + s)[1..] == s;
  }

  /** `split()` on any whitespace layout of words, with any leading, separating and
      trailing whitespace, gives the words back. */
  lemma {:induction false} WordsLayout(pre: string, ws: seq<string>, gaps: seq<string>)
    requires IsBlank(pre) && GoodGaps(ws, gaps)
    ensures Words(pre + Layout(ws, gaps)) == ws
    decreases |ws|
  {
    WordsBlankFront(pre, Layout(ws, gaps));
    if ws != [] {
      var w, g, rest := ws[0], gaps[0], Layout(ws[1..], gaps[1..]);
      GoodGapsTail(ws, gaps);
      assert Layout(ws, gaps) == w + g + rest;
      if g == [] {
        assert |ws| == 1 && rest == [];
        assert Layout(ws, gaps) == w + [];
        WordLengthOfWord(w, []);
        assert w[|w|..] == [];
      } else {
        assert Layout(ws, gaps) == w + [g[0]] + (g[1..] + rest);
        WordsWordFront(w, g[0], g[1..] + rest);
        WordsLayout(g[1..], ws[1..], gaps[1..]);
        assert ws == [w] + ws[1..];
      }
    }
  }

  /** `s` is the words `ws` laid out after the whitespace `pre`, with gaps `gaps`. */
  predicate LaidOut(s: string, ws: seq<string>, pre: string, gaps: seq<string>) {
    IsBlank(pre) && GoodGaps(ws, gaps) && s == pre + Layout(ws, gaps)
  }

  lemma LayoutCons(w: string, g: string, ws: seq<string>, gaps: seq<string>)
    requires |gaps| == |ws|
    ensures Layout([w] + ws, [g] + gaps) == w + g + Layout(ws, gaps)
  {
    assert ([w] + ws)[1..] == ws && ([g] + gaps)[1..] == gaps;
  }

  lemma GoodGapsCons(w: string, g: string, ws: seq<string>, gaps: seq<string>)
    requires IsWord(w) && IsBlank(g) && GoodGaps(ws, gaps) && (ws != [] ==> g != [])
    ensures GoodGaps([w] + ws, [g] + gaps)
  {
    forall k | 0 < k < |ws| + 1
      ensures ([w] + ws)[k] == ws[k - 1] && ([g] + gaps)[k] == gaps[k - 1]
    {
    }
  }

  /** A layout of at least one word starts with a non-whitespace character. */
  lemma LayoutStartsWithWord(ws: seq<string>, gaps: seq<string>)
    requires GoodGaps(ws, gaps) && ws != []
    ensures Layout(ws, gaps) != [] && !IsSpace(Layout(ws, gaps)[0])
  {
    assert Layout(ws, gaps) == ws[0] + (gaps[0] + Layout(ws[1..], gaps[1..]));
    assert IsWord(ws[0]);
  }

  /** A whitespace character in front of a laid-out string joins its leading blank. */
  lemma LaidOutSpace(c: char, s: string, ws: seq<string>, pre: string, gaps: seq<string>)
    requires IsSpace(c) && LaidOut(s, ws, pre, gaps)
    ensures LaidOut([c] + s, ws, [c] + pre, gaps)
  {
    assert IsBlank([c] + pre) by {
      forall i | 0 < i < |pre| + 1 ensures ([c] + pre)[i] == pre[i - 1] { }
    }
  }

  /** A word in front of a laid-out string that starts with whitespace (or is empty)
      becomes its first word, the old leading blank its gap. */
  lemma LaidOutWord(w: string, s: string, ws: seq<string>, pre: string, gaps: seq<string>)
    requires IsWord(w) && LaidOut(s, ws, pre, gaps) && (s == [] || IsSpace(s[0]))
    ensures LaidOut(w + s, [w] + ws, [], [pre] + gaps)
  {
    if ws != [] && pre == [] {
      LayoutStartsWithWord(ws, gaps);
      assert false;
    }
    GoodGapsCons(w, pre, ws, gaps);
    LayoutCons(w, pre, ws, gaps);
  }

  /** `split()` drops only whitespace: every string is its fields laid out with
      whitespace before, between and after them. */
  lemma {:induction false} WordsCover(s: string)
    ensures exists pre, gaps :: LaidOut(s, Words(s), pre, gaps)
    decreases |s|
  {
    if s == [] {
      assert LaidOut(s, Words(s), [], []);
    } else if IsSpace(s[0]) {
      WordsCover(s[1..]);
      var pre, gaps :| LaidOut(s[1..], Words(s[1..]), pre, gaps);
      LaidOutSpace(s[0], s[1..], Words(s[1..]), pre, gaps);
      assert [s[0]] + s[1..] == s;
      assert Words(s) == Words(s[1..]);
      assert LaidOut(s, Words(s), [s[0]] + pre, gaps);
    } else {
      var n := WordLength(s);
      var w, rest := s[..n], s[n..];
      assert rest == [] || IsSpace(rest[0]);
      assert IsWord(w);
      assert Words(s) == [w] + Words(rest);
      WordsCover(rest);
      var pre, gaps :| LaidOut(rest, Words(rest), pre, gaps);
      LaidOutWord(w, rest, Words(rest), pre, gaps);
      assert w + rest == s;
    }
  }

  // ---------------------------------------------------------------------------
  // Splitting on one character: str.split(sep)
  // ---------------------------------------------------------------------------

  /** The index of the first `c` in `s`. */
  function IndexOf(s: string, c: char): (i: nat)
    requires c in s
    ensures i < |s| && s[i] == c && c !in s[..i]
  {
    if s[0] == c then 0 else 1 + IndexOf(s[1..], c)
  }

  lemma IndexOfIs(s: string, c: char, j: nat)
    requires j < |s| && s[j] == c && c !in s[..j]
    ensures IndexOf(s, c) == j
  {
  }

  /** Pieces written out with `sep` between neighbours: `sep.join(ps)`. */
  function Join(ps: seq<string>, sep: char): string
    requires |ps| >= 1
  {
    if |ps| == 1 then ps[0] else ps[0] + [sep] + Join(ps[1..], sep)
  }

  /** `s.split(sep)`: the pieces between occurrences of `sep`, empty ones included. */
  function Split(s: string, sep: char): (r: seq<string>)
    ensures |r| >= 1
    ensures |r| == 1 <==> sep !in s
    ensures forall k :: 0 <= k < |r| ==> sep !in r[k]
    decreases |s|
  {
    if sep !in s then [s]
    else
      var i := IndexOf(s, sep);
      [s[..i]] + Split(s[i + 1..], sep)
  }

  /** Joining the pieces with the separator gives back the string that was split. */
  lemma {:induction false} JoinSplit(s: string, sep: char)
    ensures Join(Split(s, sep), sep) == s
    decreases |s|
  {
    if sep in s {
      var i := IndexOf(s, sep);
      var rest := Split(s[i + 1..], sep);
      JoinSplit(s[i + 1..], sep);
      assert ([s[..i]] + rest)[1..] == rest;
      assert s == s[..i] + [sep] + s[i + 1..];
    }
  }

  /** One step of `Split` at the first separator, at index `i`. */
  lemma SplitAt(s: string, sep: char, i: nat)
    requires i < |s| && s[i] == sep && sep !in s[..i]
    ensures Split(s, sep) == [s[..i]] + Split(s[i + 1..], sep)
  {
    IndexOfIs(s, sep, i);
  }

  lemma Slices(a: string, sep: char, b: string, i: nat)
    requires i < |a|
    ensures (a + [sep] + b)[..i] == a[..i]
    ensures (a + [sep] + b)[i + 1..] == a[i + 1..] + [sep] + b
  {
  }

  lemma ConcatAssoc<T>(x: seq<T>, y: seq<T>, z: seq<T>)
    ensures x + (y + z) == (x + y) + z
  {
  }

  /** Splitting distributes over a separator: the pieces of `a sep b` are those of `a`
      followed by those of `b`. */
  lemma {:induction false} SplitAround(a: string, sep: char, b: string)
    ensures Split(a + [sep] + b, sep) == Split(a, sep) + Split(b, sep)
    decreases |a|
  {
    var s := a + [sep] + b;
    if sep !in a {
      assert s[..|a|] == a;
      assert s[|a| + 1..] == b;
      SplitAt(s, sep, |a|);
      assert Split(a, sep) == [a];
    } else {
      var i := IndexOf(a, sep);
      var a1, a2 := a[..i], a[i + 1..];
      Slices(a, sep, b, i);
      SplitAt(s, sep, i);
      SplitAt(a, sep, i);
      SplitAround(a2, sep, b);
      ConcatAssoc([a1], Split(a2, sep), Split(b, sep));
    }
  }

  /** Splitting undoes joining, when no piece holds the separator. */
  lemma {:induction false} SplitJoin(ps: seq<string>, sep: char)
    requires |ps| >= 1
    requires forall k :: 0 <= k < |ps| ==> sep !in ps[k]
    ensures Split(Join(ps, sep), sep) == ps
  {
    if |ps| == 1 {
      assert Join(ps, sep) == ps[0];
    } else {
      assert Join(ps, sep) == ps[0] + [sep] + Join(ps[1..], sep);
      SplitAround(ps[0], sep, Join(ps[1..], sep));
      SplitJoin(ps[1..], sep);
      assert Split(ps[0], sep) == [ps[0]];
      assert ps == [ps[0]] + ps[1..];
    }
  }

  /** The text before the first `sep`, or all of `s` when it has none: `s.split(sep)[0]`. */
  function Before(s: string, sep: char): (r: string)
    ensures sep !in r
    ensures r <= s
    ensures r == s || s[|r|] == sep
  {
    if sep !in s then s else s[..IndexOf(s, sep)]
  }

  lemma BeforeIsFirstPiece(s: string, sep: char)
    ensures Before(s, sep) == Split(s, sep)[0]
  {
  }

  /** `Before(a sep b)` is `a` when `a` has no `sep`. */
  lemma BeforeAround(a: string, sep: char, b: string)
    requires sep !in a
    ensures Before(a + [sep] + b, sep) == a
  {
    var s := a + [sep] + b;
    assert s[..|a|] == a;
    IndexOfIs(s, sep, |a|);
  }

  // ---------------------------------------------------------------------------
  // Integers: int(field)
  // ---------------------------------------------------------------------------

  predicate IsDigit(c: char) { '0' <= c <= '9' }

  predicate IsDigits(s: string) {
    s != [] && forall i :: 0 <= i < |s| ==> IsDigit(s[i])
  }

  function DigitValue(c: char): nat
    requires IsDigit(c)
  {
    c as int - '0' as int
  }

  /** The value of a string of decimal digits, most significant first. */
  function DigitsValue(s: string): nat
    requires forall i :: 0 <= i < |s| ==> IsDigit(s[i])
  {
    if s == [] then 0
    else 10 * DigitsValue(s[..|s| - 1]) + DigitValue(s[|s| - 1])
  }

  /** Python's `int(field)` on a whitespace-free field: an optional sign and one or more
      decimal digits; anything else raises ValueError, here `None`. */
  function ParseInt(s: string): Option<int> {
    if |s| > 0 && (s[0] == '+' || s[0] == '-') && IsDigits(s[1..]) then
      var m: int := DigitsValue(s[1..]);
      Some(if s[0] == '-' then -m else m)
    else if IsDigits(s) then Some(DigitsValue(s))
    else None
  }

  /** The decimal digits of `n`, without leading zeros. */
  function ShowNat(n: nat): (s: string)
    ensures IsDigits(s)
  {
    var d := ['0' + ((n % 10) as char)];
    if n < 10 then d else ShowNat(n / 10) + d
  }

  /** `str(n)` for an integer. */
  function ShowInt(n: int): string {
    if n < 0 then "-" + ShowNat(-n) else ShowNat(n)
  }

  lemma {:induction false} DigitsValueShowNat(n: nat)
    ensures DigitsValue(ShowNat(n)) == n
  {
    var d := ['0' + ((n % 10) as char)];
    if n >= 10 {
      var s := ShowNat(n / 10) + d;
      assert s[..|s| - 1] == ShowNat(n / 10);
      DigitsValueShowNat(n / 10);
    }
  }

  /** `int(str(n)) == n`: the parser reads back every integer the way Python prints it. */
  lemma ParseShowInt(n: int)
    ensures ParseInt(ShowInt(n)) == Some(n)
  {
    if n < 0 {
      DigitsValueShowNat(-n);
      assert ShowInt(n)[1..] == ShowNat(-n);
    } else {
      DigitsValueShowNat(n);
    }
  }

  /** A field holding a character that is neither a digit nor a leading sign is refused. */
  lemma ParseIntRejects(s: string, i: nat)
    requires i < |s| && !IsDigit(s[i]) && !(i == 0 && (s[i] == '+' || s[i] == '-'))
    ensures ParseInt(s) == None
  {
  }

  // ---------------------------------------------------------------------------
  // Paths: os.path.join and os.path.basename
  // ---------------------------------------------------------------------------

  /** `os.path.join(dir, name)` for a relative `name`. */
  function PathJoin(dir: string, name: string): string {
    if dir == [] then name
    else if dir[|dir| - 1] == '/' then dir + name
    else dir + "/" + name
  }

  /** `os.path.basename(path)`: the text after the last '/'. */
  function Basename(path: string): (r: string)
    ensures '/' !in r
  {
    var ps := Split(path, '/');
    ps[|ps| - 1]
  }

  /** The basename of a joined path is the name that was joined. */
  lemma BasenameOfJoin(dir: string, name: string)
    requires '/' !in name
    ensures Basename(PathJoin(dir, name)) == name
  {
    SplitJoin([name], '/');
    if dir == [] {
    } else if dir[|dir| - 1] == '/' {
      var d := dir[..|dir| - 1];
      assert dir + name == d + ['/'] + name;
      SplitAround(d, '/', name);
    } else {
      assert dir + "/" + name == dir + ['/'] + name;
      SplitAround(dir, '/', name);
    }
  }
}
