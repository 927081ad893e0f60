/** Stock datatypes and the counting function that the protocol modules share. */
module Common {

  datatype Option<+T> = None | Some(value: T)

  /** How many elements of s satisfy p. */
  ghost function Count<T>(p: T -> bool, s: seq<T>): nat {
    if s == [] then 0 else Count(p, s[..|s| - 1]) + (if p(s[|s| - 1]) then 1 else 0)
  }

  lemma {:induction false} CountAppend<T>(p: T -> bool, s: seq<T>, t: seq<T>)
    ensures Count(p, s + t) == Count(p, s) + Count(p, t)
    decreases |t|
  {
    if t == [] {
      assert s + t == s;
    } else {
      var init := t[..|t| - 1];
      assert (s + t)[..|s + t| - 1] == s + init;
      CountAppend(p, s, init);
    }
  }

  /** Removing the element at i takes away exactly what that element counted. */
  lemma {:induction false} CountRemove<T>(p: T -> bool, s: seq<T>, i: nat)
    requires i < |s|
    ensures Count(p, RemoveAt(s, i)) + (if p(s[i]) then 1 else 0) == Count(p, s)
  {
    assert s == s[..i] + ([s[i]] + s[i + 1..]);
    CountAppend(p, s[..i], s[i + 1..]);
    CountAppend(p, s[..i], [s[i]] + s[i + 1..]);
    CountAppend(p, [s[i]], s[i + 1..]);
    assert Count(p, [s[i]]) == if p(s[i]) then 1 else 0 by {
      assert [s[i]][..0] == [];
    }
  }

  function RemoveAt<T>(s: seq<T>, i: nat): seq<T>
    requires i < |s|
  {
    s[..i] + s[i + 1..]
  }

  /** Go's reading of a map of strings: the empty string where there is no entry. */
  function Lookup(m: map<string, string>, key: string): string {
    if key in m then m[key] else ""
  }

  predicate IsSpace(c: char) {
    c in {' ', '\t', '\n', '\r'} || c as int in {
      0x0B, 0x0C, 0x85, 0xA0, 0x1680, 0x2028, 0x2029, 0x202F, 0x205F, 0x3000} || 0x2000 <= c as int <= 0x200A
  }

  function TrimSpace(s: string): string {
    if s == "" then ""
    else if IsSpace(s[0]) then TrimSpace(s[1..])
    else if IsSpace(s[|s| - 1]) then TrimSpace(s[..|s| - 1])
    else s
  }

  predicate Blank(s: string) {
    forall c :: c in s ==> IsSpace(c)
  }

  /** Neither begins nor ends with a space. */
  predicate Trimmed(s: string) {
    s == "" || (!IsSpace(s[0]) && !IsSpace(s[|s| - 1]))
  }

  /** Trimming takes the blanks off both ends and nothing else. */
  lemma {:induction false} TrimmedOf(a: string, t: string, b: string)
    requires Blank(a) && Trimmed(t) && Blank(b)
    ensures TrimSpace(a + t + b) == t
    decreases |a| + |b|
  {
    hide IsSpace;
    if a != "" {
      assert (a + t + b)[1..] == a[1..] + t + b;
      TrimmedOf(a[1..], t, b);
    } else if b != "" {
      var init := b[..|b| - 1];
      assert a + t + b == t + b && a + t + init == t + init;
      assert (t + b)[..|t + b| - 1] == t + init;
      if t == "" {
        TrimmedOf("", "", b[1..]);
        assert "" + "" + b[1..] == b[1..] && a + t + b == b;
      } else {
        TrimmedOf("", t, init);
      }
    } else {
      assert a + t + b == t;
    }
  }

  lemma {:induction false} TrimForms(s: string) returns (a: string, b: string)
    ensures Blank(a) && Trimmed(TrimSpace(s)) && Blank(b) && s == a + TrimSpace(s) + b
  {
    hide IsSpace;
    a, b := "", "";
    if s != "" && IsSpace(s[0]) {
      a, b := TrimForms(s[1..]);
      a := [s[0]] + a;
    } else if s != "" && IsSpace(s[|s| - 1]) {
      a, b := TrimForms(s[..|s| - 1]);
      b := b + [s[|s| - 1]];
      assert s == s[..|s| - 1] + [s[|s| - 1]];
    }
  }
}
