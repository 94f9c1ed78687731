/**
 * The few QString operations the SQL export plugin relies on: trimmed(),
 * endsWith(), toLower(), case-insensitive QStringList::contains() and
 * QStringList::join(). White space and case are those of ASCII.
 */
module QtText {

  /** QChar::isSpace restricted to ASCII: space, tab, line feed, vertical
      tab, form feed and carriage return. */
  predicate IsSpace(c: char)
  {
    c == ' ' || c == '\t' || c == '\n' || c == '\U{000B}' || c == '\U{000C}' || c == '\r'
  }

  /** The first position at or after i that holds no white space. */
  function TrimStart(s: string, i: nat): (r: nat)
    requires i <= |s|
    ensures i <= r <= |s|
    decreases |s| - i
  {
    if i < |s| && IsSpace(s[i]) then TrimStart(s, i + 1) else i
  }

  lemma {:induction false} TrimStartSkipsSpace(s: string, i: nat)
    requires i <= |s|
    ensures var r := TrimStart(s, i);
      && (forall k :: i <= k < r ==> IsSpace(s[k]))
      && (r == |s| || !IsSpace(s[r]))
    decreases |s| - i
  {
    if i < |s| && IsSpace(s[i]) {
      TrimStartSkipsSpace(s, i + 1);
    }
  }

  /** The end of s[lo..hi] once its trailing white space is dropped. */
  function TrimEnd(s: string, lo: nat, hi: nat): (r: nat)
    requires lo <= hi <= |s|
    ensures lo <= r <= hi
    decreases hi - lo
  {
    if lo < hi && IsSpace(s[hi - 1]) then TrimEnd(s, lo, hi - 1) else hi
  }

  lemma {:induction false} TrimEndSkipsSpace(s: string, lo: nat, hi: nat)
    requires lo <= hi <= |s|
    ensures var r := TrimEnd(s, lo, hi);
      && (forall k :: r <= k < hi ==> IsSpace(s[k]))
      && (r == lo || !IsSpace(s[r - 1]))
    decreases hi - lo
  {
    if lo < hi && IsSpace(s[hi - 1]) {
      TrimEndSkipsSpace(s, lo, hi - 1);
    }
  }

  /** QString::trimmed: s without white space at either end. */
  function Trimmed(s: string): string
  {
    var lo := TrimStart(s, 0);
    s[lo..TrimEnd(s, lo, |s|)]
  }

  /** Trimming drops the white space at both ends and nothing else. */
  lemma TrimmedDropsSpace(s: string)
    ensures var lo := TrimStart(s, 0);
      var hi := TrimEnd(s, lo, |s|);
      && lo <= hi <= |s| && Trimmed(s) == s[lo..hi]
      && (forall k :: 0 <= k < lo ==> IsSpace(s[k]))
      && (forall k :: hi <= k < |s| ==> IsSpace(s[k]))
      && (lo == hi || (!IsSpace(s[lo]) && !IsSpace(s[hi - 1])))
  {
    TrimStartSkipsSpace(s, 0);
    TrimEndSkipsSpace(s, TrimStart(s, 0), |s|);
  }

  /** The trimmed text has no white space at either end. */
  lemma TrimmedEnds(s: string)
    ensures var r := Trimmed(s);
      && |r| <= |s|
      && (r == [] || (!IsSpace(r[0]) && !IsSpace(r[|r| - 1])))
  {
    TrimmedDropsSpace(s);
  }

  /** Trimming removes nothing from a string that has no white space at
      either end. */
  lemma TrimmedFixes(s: string)
    requires s == [] || (!IsSpace(s[0]) && !IsSpace(s[|s| - 1]))
    ensures Trimmed(s) == s
  {
    assert TrimStart(s, 0) == 0;
    assert TrimEnd(s, 0, |s|) == |s|;
  }

  /** Trimming twice is trimming once. */
  lemma TrimmedIdempotent(s: string)
    ensures Trimmed(Trimmed(s)) == Trimmed(s)
  {
    TrimmedDropsSpace(s);
    TrimmedFixes(Trimmed(s));
  }

  /** QString::endsWith. */
  predicate EndsWith(s: string, suffix: string)
  {
    |suffix| <= |s| && s[|s| - |suffix|..] == suffix
  }

  /** QChar::toLower restricted to ASCII. */
  function Lower(c: char): (r: char)
    ensures 'A' <= c <= 'Z' ==> 'a' <= r <= 'z'
    ensures !('A' <= c <= 'Z') ==> r == c
  {
    if 'A' <= c <= 'Z' then (c as int - 'A' as int + 'a' as int) as char else c
  }

  /** QString::toLower. */
  function ToLower(s: string): (r: string)
    ensures |r| == |s|
    ensures forall k :: 0 <= k < |s| ==> r[k] == Lower(s[k])
  {
    if s == [] then [] else [Lower(s[0])] + ToLower(s[1..])
  }

  /** Lower-casing is idempotent. */
  lemma ToLowerIdempotent(s: string)
    ensures ToLower(ToLower(s)) == ToLower(s)
  {
  }

  /** Two strings are equal ignoring case. */
  predicate SameIgnoringCase(a: string, b: string)
  {
    ToLower(a) == ToLower(b)
  }

  /** QStringList::contains(x, Qt::CaseInsensitive). */
  predicate ContainsIgnoringCase(list: seq<string>, x: string)
  {
    exists k :: 0 <= k < |list| && SameIgnoringCase(list[k], x)
  }

  /** QStringList::join. */
  function Join(items: seq<string>, sep: string): string
  {
    if |items| == 0 then ""
    else if |items| == 1 then items[0]
    else items[0] + sep + Join(items[1..], sep)
  }

  /** Each item mapped through f, in order. */
  function Map<T, U>(f: T -> U, xs: seq<T>): (r: seq<U>)
    ensures |r| == |xs|
    ensures forall k :: 0 <= k < |xs| ==> r[k] == f(xs[k])
  {
    seq(|xs|, k requires 0 <= k < |xs| => f(xs[k]))
  }

  /** Mapping a list grown by one item grows the result by its image. */
  lemma MapAppend<T, U>(f: T -> U, xs: seq<T>, x: T)
    ensures Map(f, xs + [x]) == Map(f, xs) + [f(x)]
  {
  }
}
