/**
 * The line helpers of the PMA reader: classifying a line as a keyword line
 * or a parameter line, measuring its indentation, and splitting a parameter
 * line into its key and optional value.
 */
module PmaLines {
  import opened Wrappers
  import opened StrOps
  import opened PmaKeywords

  /** Rust's ordering on `Option<usize>`: `None` is below every `Some`. */
  predicate OptionLess(a: Option<nat>, b: Option<nat>) {
    match (a, b)
    case (Some(x), Some(y)) => x < y
    case (None, Some(_)) => true
    case _ => false
  }

  /**
   * `is_node`: a hyphen and no `=`, or a hyphen whose first occurrence comes
   * before the first `=`, or neither character at all.
   */
  predicate IsNode(line: string) {
    var eqIndex := Find(line, '=');
    var hyphenIndex := Find(line, '-');
    ('-' in line && '=' !in line)
    || (OptionLess(hyphenIndex, eqIndex) && hyphenIndex.Some? && eqIndex.Some?)
    || ('-' !in line && '=' !in line)
  }

  /** A line is a keyword line exactly when it has no `=`, or has a `-` before its first `=`. */
  lemma IsNodeIff(line: string)
    ensures IsNode(line) <==>
      '=' !in line || exists i :: 0 <= i < |line| && line[i] == '-' && '=' !in line[..i]
  {
    FindSpec(line, '=');
    FindSpec(line, '-');
    if '=' in line && '-' in line {
      var e := Find(line, '=').value;
      var h := Find(line, '-').value;
      if h < e {
        assert '=' !in line[..h] by {
          assert line[..h] == line[..e][..h];
        }
      } else {
        forall i | 0 <= i < |line| && line[i] == '-' ensures '=' in line[..i] {
          assert line[..i][e] == '=';
        }
      }
    }
  }

  /**
   * A line with an `=` and no `-` before it is a parameter line, whatever
   * follows the `=`: a negative value does not make a keyword line.
   */
  lemma ValueAfterEqualsIsParameter(key: string, value: string)
    requires '=' !in key && '-' !in key
    ensures !IsNode(key + "=" + value)
  {
    var line := key + "=" + value;
    FindSpec(line, '=');
    FindSpec(line, '-');
    assert line[|key|] == '=';
    assert line[..|key|] == key;
  }

  /** The parameter line `Posicao.Lat = -29.7` is not a keyword line. */
  lemma NegativeValueIsParameter()
    ensures !IsNode("Posicao.Lat = -29.7")
  {
    assert "Posicao.Lat = -29.7" == "Posicao.Lat " + "=" + " -29.7";
    ValueAfterEqualsIsParameter("Posicao.Lat ", " -29.7");
  }

  /**
   * `get_indentation_level`: the number of tab characters in the line once
   * trailing whitespace is removed.  Every tab counts, not only leading ones.
   */
  function IndentationLevel(line: string): nat {
    CountChar(TrimEnd(line), '\t')
  }

  /** The level is at most the line's length, and a line without tabs is at level 0. */
  lemma IndentationLevelSpec(line: string)
    ensures IndentationLevel(line) <= |line|
    ensures '\t' !in line ==> IndentationLevel(line) == 0
  {
    var t := TrimEnd(line);
    TrimEndSpec(line);
    CountCharSpec(t, '\t');
    assert t == line[..|t|];
    if '\t' !in line {
      assert '\t' !in t;
    }
  }

  /** `n` tab characters. */
  function Tabs(n: nat): (s: string)
    ensures |s| == n && forall i :: 0 <= i < n ==> s[i] == '\t'
  {
    if n == 0 then "" else Tabs(n - 1) + "\t"
  }

  /** A line made of `n` tabs and a tab-free text that does not end in whitespace has level `n`. */
  lemma IndentationOfTabs(n: nat, body: string)
    requires '\t' !in body
    requires body != [] && !IsWhitespace(body[|body| - 1])
    ensures IndentationLevel(Tabs(n) + body) == n
  {
    TrimEndAround(Tabs(n) + body, []);
    assert Tabs(n) + body + [] == Tabs(n) + body;
    CountCharAppend(Tabs(n), body, '\t');
    CountCharSpec(body, '\t');
    CountCharSpec(Tabs(n), '\t');
    assert multiset(Tabs(n))['\t'] == n by {
      TabsCount(n);
    }
  }

  lemma {:induction false} TabsCount(n: nat)
    ensures multiset(Tabs(n))['\t'] == n
  {
    if n > 0 {
      TabsCount(n - 1);
      assert multiset(Tabs(n)) == multiset(Tabs(n - 1)) + multiset{'\t'};
    }
  }

  /** A tab after the first visible character still counts towards the level. */
  lemma InnerTabCounts()
    ensures IndentationLevel("a\tb") == 1
  {
    TrimEndAround("a\tb", []);
    assert "a\tb" + [] == "a\tb";
  }

  /**
   * `split_into_tuple`: the trimmed first `sep`-separated piece as the key,
   * and the trimmed second piece, if there is one, as the value.
   */
  function SplitIntoTuple(line: string, sep: char): (string, Option<string>) {
    var words := Split(line, sep);
    SplitSpec(line, sep);
    var key := Trim(words[0]);
    var value := if |words| > 1 then Some(Trim(words[1])) else None;
    (key, value)
  }

  /**
   * The key is the trimmed text before the first separator; there is a value
   * exactly when the separator occurs, and it is the trimmed text between the
   * first and the second separator (so `"k ="` gives `Some("")`).
   */
  lemma SplitIntoTupleSpec(line: string, sep: char)
    ensures SplitIntoTuple(line, sep).0 == Trim(Before(line, sep))
    ensures SplitIntoTuple(line, sep).1.None? <==> sep !in line
    ensures sep in line ==>
      (|Before(line, sep)| < |line| &&
       SplitIntoTuple(line, sep).1 == Some(Trim(Before(line[|Before(line, sep)| + 1..], sep))))
  {
    SplitSpec(line, sep);
    BeforeSpec(line, sep);
  }

  /**
   * A parameter line `key = value` with `=`-free, trimmed key and value
   * splits into exactly that key and value.
   */
  lemma SplitParameterLine(pre: string, key: string, value: string)
    requires AllWhitespace(pre)
    requires '=' !in pre && '=' !in key && '=' !in value
    requires key == [] || (!IsWhitespace(key[0]) && !IsWhitespace(key[|key| - 1]))
    requires value == [] || (!IsWhitespace(value[0]) && !IsWhitespace(value[|value| - 1]))
    ensures SplitIntoTuple(pre + key + " = " + value, '=') == (key, Some(value))
  {
    var line := pre + key + " = " + value;
    assert line == Join([pre + key + " ", " " + value], '=');
    SplitJoin([pre + key + " ", " " + value], '=');
    assert AllWhitespace(" ");
    TrimAround(pre, key, " ");
    TrimAround(" ", value, []);
    assert " " + value + [] == " " + value;
  }
}
