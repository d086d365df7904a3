/** Character-level helpers shared by the collector and the column rules:
    lower-casing, substring search, file-system path names, and the
    name rules that decide which sensors and columns are power or temperature. */
module Text {

  /** `c.lower()` for one character, restricted to ASCII letters. */
  function LowerChar(c: char): char {
    if 'A' <= c <= 'Z' then (c as int + 32) as char else c
  }

  /** `s.lower()`, restricted to ASCII letters. */
  function Lower(s: string): string {
    seq(|s|, i requires 0 <= i < |s| => LowerChar(s[i]))
  }

  predicate StartsWith(s: string, prefix: string) {
    |prefix| <= |s| && s[..|prefix|] == prefix
  }

  /** Python's `sub in s` on strings. */
  predicate Contains(s: string, sub: string)
    decreases |s|
  {
    StartsWith(s, sub) || (|s| > 0 && Contains(s[1..], sub))
  }

  /** `sub` occurs in `s` starting at position `i`. */
  predicate OccursAt(s: string, sub: string, i: int) {
    0 <= i && i + |sub| <= |s| && s[i..i + |sub|] == sub
  }

  /** `sub in s` holds exactly when `sub` occurs at some position of `s`. */
  lemma {:induction false} ContainsAt(s: string, sub: string)
    ensures Contains(s, sub) <==> exists i :: OccursAt(s, sub, i)
    decreases |s|
  {
    if StartsWith(s, sub) {
      assert OccursAt(s, sub, 0);
    } else {
      if |s| > 0 {
        ContainsAt(s[1..], sub);
      }
      if |s| > 0 && Contains(s[1..], sub) {
        var i :| OccursAt(s[1..], sub, i);
        assert s[i + 1..i + 1 + |sub|] == s[1..][i..i + |sub|];
        assert OccursAt(s, sub, i + 1);
      } else {
        forall i ensures !OccursAt(s, sub, i) {
          if i == 0 && |sub| <= |s| {
            assert s[..|sub|] == s[0..0 + |sub|];
          } else if 0 < i && i + |sub| <= |s| {
            var j := i - 1;
            assert s[1..][j..j + |sub|] == s[i..i + |sub|];
            assert !OccursAt(s[1..], sub, j);
          }
        }
      }
    }
  }

  /** `s.split('/')`: the pieces between slashes, empty pieces included. */
  function Split(s: string): (pieces: seq<string>)
    ensures |pieces| >= 1
    ensures forall i :: 0 <= i < |pieces| ==> '/' !in pieces[i]
  {
    if s == [] then [[]]
    else
      var rest := Split(s[1..]);
      if s[0] == '/' then [[]] + rest
      else [[s[0]] + rest[0]] + rest[1..]
  }

  /** A piece pathlib keeps as a component: neither empty nor ".". */
  predicate IsComponent(piece: string) {
    piece != "" && piece != "."
  }

  /** The last piece pathlib keeps as a component, or "" when there is none. */
  function LastComponent(pieces: seq<string>): (c: string)
    ensures c == "" || (IsComponent(c) && c in pieces)
  {
    if pieces == [] then ""
    else if IsComponent(pieces[|pieces| - 1]) then pieces[|pieces| - 1]
    else LastComponent(pieces[..|pieces| - 1])
  }

  /** The chosen piece is "" exactly when no piece is a component, and otherwise
      the component with no component after it. */
  lemma {:induction false} LastComponentIsLast(pieces: seq<string>)
    ensures LastComponent(pieces) == "" <==> forall i :: 0 <= i < |pieces| ==> !IsComponent(pieces[i])
    ensures LastComponent(pieces) != "" ==> exists j ::
      && 0 <= j < |pieces|
      && pieces[j] == LastComponent(pieces)
      && forall i :: j < i < |pieces| ==> !IsComponent(pieces[i])
    decreases |pieces|
  {
    if pieces != [] {
      var n := |pieces| - 1;
      var init := pieces[..n];
      if IsComponent(pieces[n]) {
        assert pieces[n] == LastComponent(pieces);
      } else {
        assert LastComponent(pieces) == LastComponent(init);
        LastComponentIsLast(init);
        forall i | 0 <= i < n ensures pieces[i] == init[i] {
        }
        if LastComponent(init) != "" {
          var j :|
            && 0 <= j < |init|
            && init[j] == LastComponent(init)
            && forall i :: j < i < |init| ==> !IsComponent(init[i]);
          assert pieces[j] == LastComponent(pieces);
        }
      }
    }
  }

  /** `Path(path).name` for a POSIX path: the last component, or "" when there is none. */
  function Name(path: string): (name: string)
    ensures '/' !in name
    ensures name == "" || IsComponent(name)
  {
    LastComponent(Split(path))
  }

  /** Splitting at one explicit slash splits the two sides independently. */
  lemma {:induction false} SplitJoin(a: string, b: string)
    ensures Split(a + "/" + b) == Split(a) + Split(b)
    decreases |a|
  {
    if a == [] {
      assert [] + "/" + b == "/" + b;
      assert ("/" + b)[1..] == b;
    } else {
      assert (a + "/" + b)[1..] == a[1..] + "/" + b;
      SplitJoin(a[1..], b);
    }
  }

  lemma {:induction false} SplitPlain(s: string)
    requires '/' !in s
    ensures Split(s) == [s]
    decreases |s|
  {
    if s != [] {
      SplitPlain(s[1..]);
      assert [s[0]] + s[1..] == s;
    }
  }

  /** The f-string `f'{dir}/{name}'` the collector uses to build resource paths. */
  function Child(dir: string, name: string): string {
    dir + "/" + name
  }

  /** The name of `dir/name` is `name` when `name` is a proper component:
      building a resource path and taking its name gives the name back. */
  lemma NameOfChild(dir: string, name: string)
    requires '/' !in name && IsComponent(name)
    ensures Name(Child(dir, name)) == name
  {
    SplitJoin(dir, name);
    SplitPlain(name);
  }

  /** A trailing slash does not change the name. */
  lemma TrailingSlash(path: string)
    ensures Name(path + "/") == Name(path)
  {
    SplitJoin(path, "");
    assert path + "/" + "" == path + "/";
    var pieces := Split(path) + [""];
    assert pieces[..|pieces| - 1] == Split(path);
    assert Split("") == [""];
  }

  /** The rule of collector.py and test_main.py for power readings:
      the lower-cased text contains "pwr" or "power". */
  predicate MentionsPower(s: string) {
    Contains(Lower(s), "pwr") || Contains(Lower(s), "power")
  }

  /** The rule of test_main.py for temperature columns. */
  predicate MentionsTemp(s: string) {
    Contains(Lower(s), "temp")
  }

  /** The empty path is never a power reading. */
  lemma EmptyIsNotPower()
    ensures !MentionsPower("")
  {
    assert !Contains("", "pwr");
    assert !Contains("", "power");
  }

  /** The power rule ignores letter case. */
  lemma {:induction false} MentionsPowerIgnoresCase(s: string)
    ensures MentionsPower(s) == MentionsPower(Lower(s))
  {
    assert Lower(Lower(s)) == Lower(s);
  }
}
