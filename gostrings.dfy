/** The few functions of Go's `strings` package the core relies on, written out
    over `seq<char>`. */
module GoStrings {

  /** strings.HasPrefix */
  predicate HasPrefix(s: string, prefix: string)
  {
    |prefix| <= |s| && s[..|prefix|] == prefix
  }

  /** strings.Replace(s, string(c), rep, -1): every occurrence of `c` becomes `rep`. */
  function ReplaceAll(s: string, c: char, rep: string): string
  {
    if s == [] then []
    else (if s[0] == c then rep else [s[0]]) + ReplaceAll(s[1..], c, rep)
  }

  /** Text without `c` is left as it is. */
  lemma {:induction false} ReplaceAllAbsent(s: string, c: char, rep: string)
    requires c !in s
    ensures ReplaceAll(s, c, rep) == s
  {
    if s != [] {
      ReplaceAllAbsent(s[1..], c, rep);
    }
  }

  /** When the replacement holds no `c`, no `c` survives. */
  lemma {:induction false} ReplaceAllRemoves(s: string, c: char, rep: string)
    requires c !in rep
    ensures c !in ReplaceAll(s, c, rep)
  {
    if s != [] {
      ReplaceAllRemoves(s[1..], c, rep);
    }
  }

  /** strings.TrimRight(s, cutset): drop every trailing character that is in `cutset`. */
  function TrimRight(s: string, cutset: set<char>): (r: string)
    ensures HasPrefix(s, r)
    ensures r == [] || r[|r| - 1] !in cutset
    ensures forall i | |r| <= i < |s| :: s[i] in cutset
  {
    if s == [] then []
    else if s[|s| - 1] in cutset then TrimRight(s[..|s| - 1], cutset)
    else s
  }

  /** strings.Split(s, " ")[0]: everything before the first space. */
  function FirstField(s: string): (r: string)
    ensures HasPrefix(s, r)
    ensures ' ' !in r
    ensures |r| < |s| ==> s[|r|] == ' '
  {
    if s == [] || s[0] == ' ' then [] else [s[0]] + FirstField(s[1..])
  }

  /** Trimming text whose last character survives, followed by cut characters only,
      gives back exactly that text. */
  lemma {:induction false} TrimRightSuffix(x: string, y: string, cutset: set<char>)
    requires x == [] || x[|x| - 1] !in cutset
    requires forall i | 0 <= i < |y| :: y[i] in cutset
    ensures TrimRight(x + y, cutset) == x
    decreases |y|
  {
    if y == [] {
      assert x + y == x;
    } else {
      var s := x + y;
      assert s[|s| - 1] == y[|y| - 1];
      assert s[..|s| - 1] == x + y[..|y| - 1];
      TrimRightSuffix(x, y[..|y| - 1], cutset);
    }
  }
}
