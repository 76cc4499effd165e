/** The CamelCase to snake_case rewrite of a constraint name:
    `name.replace(/\.?([A-Z]+)/g, (x, y) => "_" + y.toLowerCase()).replace(/^_/, "")`.
    The first replace scans left to right; at each position it matches an
    optional `.` followed by the longest run of `A`..`Z` (a `.` with no
    capital after it is not matched and is copied), and substitutes `_`
    followed by the run in lower case. The second replace drops one leading
    `_`.

    `addValidatorConstraint` reaches this rewrite only with the empty name
    (`SnakeCaseOfEmpty`). The rest of the module describes what the rewrite
    would do to a class name; `SnakeCaseNoUpper` is what shows, in
    `Constraints.RegisteredNameNotGenerated`, that a class name with a
    capital is registered verbatim and never as its snake case. */
module NameGeneration {

  predicate IsUpper(c: char) {
    'A' <= c <= 'Z'
  }

  predicate IsLower(c: char) {
    'a' <= c <= 'z'
  }

  predicate NoUpper(s: string) {
    forall i :: 0 <= i < |s| ==> !IsUpper(s[i])
  }

  /** Length of the longest prefix of `s` made of capitals: what `[A-Z]+`
      consumes greedily (0 when `s` does not start with a capital). */
  function UpperPrefix(s: string): (n: nat)
    ensures n <= |s|
    ensures forall i :: 0 <= i < n ==> IsUpper(s[i])
    ensures n < |s| ==> !IsUpper(s[n])
  {
    if s != [] && IsUpper(s[0]) then 1 + UpperPrefix(s[1..]) else 0
  }

  /** `toLowerCase` on a run of capitals. */
  function LowerRun(s: string): (r: string)
    requires forall i :: 0 <= i < |s| ==> IsUpper(s[i])
    ensures |r| == |s|
    ensures forall i :: 0 <= i < |r| ==> IsLower(r[i]) && r[i] as int == s[i] as int + 32
  {
    if s == [] then []
    else
      assert IsUpper(s[0]) && s[0] as int <= 90;
      [(s[0] as int + 32) as char] + LowerRun(s[1..])
  }

  /** The first, global replace. */
  function ReplaceCaps(s: string): (r: string)
    decreases |s|
  {
    if s == [] then []
    else if s[0] == '.' && |s| > 1 && IsUpper(s[1]) then
      var n := UpperPrefix(s[1..]);
      "_" + LowerRun(s[1..1 + n]) + ReplaceCaps(s[1 + n..])
    else if IsUpper(s[0]) then
      var n := UpperPrefix(s);
      "_" + LowerRun(s[..n]) + ReplaceCaps(s[n..])
    else
      [s[0]] + ReplaceCaps(s[1..])
  }

  /** The second replace, `/^_/`. */
  function StripLeadingUnderscore(s: string): string {
    if |s| > 0 && s[0] == '_' then s[1..] else s
  }

  function SnakeCase(s: string): string {
    StripLeadingUnderscore(ReplaceCaps(s))
  }

  lemma NoUpperAppend(a: string, b: string)
    requires NoUpper(a) && NoUpper(b)
    ensures NoUpper(a + b)
  {
    forall i | 0 <= i < |a + b| ensures !IsUpper((a + b)[i]) {
      if i < |a| { assert (a + b)[i] == a[i]; } else { assert (a + b)[i] == b[i - |a|]; }
    }
  }

  /** The replacement of one match has no capital. */
  lemma ReplacementNoUpper(run: string)
    requires forall i :: 0 <= i < |run| ==> IsUpper(run[i])
    ensures NoUpper("_" + LowerRun(run))
  {
    var low := LowerRun(run);
    assert NoUpper(low);
    NoUpperAppend("_", low);
  }

  /** The rewrite leaves no capital behind. */
  lemma {:induction false} ReplaceCapsNoUpper(s: string)
    ensures NoUpper(ReplaceCaps(s))
    decreases |s|
  {
    if s == [] {
    } else if s[0] == '.' && |s| > 1 && IsUpper(s[1]) {
      var n := UpperPrefix(s[1..]);
      var run, rest := s[1..1 + n], s[1 + n..];
      assert ReplaceCaps(s) == "_" + LowerRun(run) + ReplaceCaps(rest);
      ReplaceCapsNoUpper(rest);
      ReplacementNoUpper(run);
      NoUpperAppend("_" + LowerRun(run), ReplaceCaps(rest));
    } else if IsUpper(s[0]) {
      var n := UpperPrefix(s);
      var run, rest := s[..n], s[n..];
      assert ReplaceCaps(s) == "_" + LowerRun(run) + ReplaceCaps(rest);
      ReplaceCapsNoUpper(rest);
      ReplacementNoUpper(run);
      NoUpperAppend("_" + LowerRun(run), ReplaceCaps(rest));
    } else {
      assert ReplaceCaps(s) == [s[0]] + ReplaceCaps(s[1..]);
      ReplaceCapsNoUpper(s[1..]);
      NoUpperAppend([s[0]], ReplaceCaps(s[1..]));
    }
  }

  lemma SnakeCaseNoUpper(s: string)
    ensures NoUpper(SnakeCase(s))
  {
    ReplaceCapsNoUpper(s);
  }

  /** A name starting with a capital (or a `.` and a capital) gets a `_`
      from the first replace, and that `_` is the one the second drops. */
  lemma SnakeCaseDropsIntroducedUnderscore(s: string)
    requires s != []
    requires IsUpper(s[0]) || (s[0] == '.' && |s| > 1 && IsUpper(s[1]))
    ensures ReplaceCaps(s) != [] && ReplaceCaps(s)[0] == '_'
    ensures SnakeCase(s) == ReplaceCaps(s)[1..]
  {
  }

  /** A name starting with any other character but `_` keeps it: the
      second replace changes nothing. */
  lemma SnakeCaseKeepsOrdinaryStart(s: string)
    requires s != [] && !IsUpper(s[0]) && s[0] != '_'
    requires !(s[0] == '.' && |s| > 1 && IsUpper(s[1]))
    ensures SnakeCase(s) == ReplaceCaps(s)
    ensures SnakeCase(s)[0] == s[0]
  {
  }

  /** On a name with no capitals the first replace changes nothing. */
  lemma {:induction false} ReplaceCapsIdentity(s: string)
    requires NoUpper(s)
    ensures ReplaceCaps(s) == s
    decreases |s|
  {
    if s != [] {
      assert !IsUpper(s[0]);
      assert |s| > 1 ==> !IsUpper(s[1]);
      assert NoUpper(s[1..]) by {
        forall i | 0 <= i < |s[1..]| ensures !IsUpper(s[1..][i]) {
          assert s[1..][i] == s[i + 1];
        }
      }
      ReplaceCapsIdentity(s[1..]);
    }
  }

  /** A name with no capitals and no leading `_` is its own snake case. */
  lemma SnakeCaseOfSnakeName(s: string)
    requires NoUpper(s)
    requires s == [] || s[0] != '_'
    ensures SnakeCase(s) == s
  {
    ReplaceCapsIdentity(s);
  }

  /** The rewrite is only ever reached on the empty name, where it yields
      the empty name. */
  lemma SnakeCaseOfEmpty()
    ensures SnakeCase("") == ""
  {
  }

  /** One step of the scan over a character that is neither a capital nor
      a `.` starting a match. */
  lemma ReplaceCapsCopies(c: char, rest: string)
    requires !IsUpper(c)
    requires c == '.' ==> rest == [] || !IsUpper(rest[0])
    ensures ReplaceCaps([c] + rest) == [c] + ReplaceCaps(rest)
  {
    assert ([c] + rest)[1..] == rest;
  }

  /** One step of the scan over a capital that is not followed by another. */
  lemma ReplaceCapsSingleCapital(c: char, rest: string)
    requires IsUpper(c)
    requires rest == [] || !IsUpper(rest[0])
    ensures ReplaceCaps([c] + rest) == "_" + LowerRun([c]) + ReplaceCaps(rest)
  {
    var s := [c] + rest;
    assert s[1..] == rest;
    assert UpperPrefix(s) == 1;
    assert s[..1] == [c];
  }

  /** A class name in CamelCase: every capital starts a new word. */
  lemma SnakeCaseOfCamelCase()
    ensures SnakeCase("MyRule") == "my_rule"
  {
    var replaced := "_my_rule";
    assert ReplaceCaps("MyRule") == replaced by { ReplaceCapsOfCamelCase(); }
    assert replaced[0] == '_' && replaced[1..] == "my_rule";
  }

  lemma ReplaceCapsOfCamelCase()
    ensures ReplaceCaps("MyRule") == "_my_rule"
  {
    ReplaceCapsOfTail();
    ReplaceCapsCapitalStep('M', "yRule", "y_rule");
    assert ['M'] + "yRule" == "MyRule";
    assert "_m" + "y_rule" == "_my_rule";
  }

  /** `ReplaceCapsSingleCapital`, given the replacement of the rest. */
  lemma ReplaceCapsCapitalStep(c: char, rest: string, replaced: string)
    requires IsUpper(c)
    requires rest == [] || !IsUpper(rest[0])
    requires ReplaceCaps(rest) == replaced
    ensures ReplaceCaps([c] + rest) == ['_', (c as int + 32) as char] + replaced
  {
    ReplaceCapsSingleCapital(c, rest);
  }

  lemma ReplaceCapsOfTail()
    ensures ReplaceCaps("yRule") == "y_rule"
  {
    var word, tail := "Rule", "yRule";
    assert ReplaceCaps(word) == "_rule" by { ReplaceCapsOfWord(); }
    assert tail == ['y'] + word;
    ReplaceCapsCopies('y', word);
  }

  lemma ReplaceCapsOfWord()
    ensures ReplaceCaps("Rule") == "_rule"
  {
    var e, le, ule := "e", "le", "ule";
    assert e == ['e'] + "" && le == ['l'] + e && ule == ['u'] + le;
    ReplaceCapsCopies('e', "");
    ReplaceCapsCopies('l', e);
    ReplaceCapsCopies('u', le);
    assert "Rule" == ['R'] + ule;
    ReplaceCapsSingleCapital('R', ule);
    assert LowerRun("R") == "r";
  }

  /** A run of capitals is one word: an acronym merges with the next word. */
  lemma SnakeCaseOfAcronym()
    ensures SnakeCase("IDs") == "ids"
  {
    var tail, name := "s", "IDs";
    ReplaceCapsCopies('s', "");
    assert tail == ['s'] + "";
    assert UpperPrefix(tail) == 0;
    assert name[1..] == "Ds" && "Ds"[1..] == tail;
    assert UpperPrefix("Ds") == 1;
    assert UpperPrefix(name) == 2;
    assert name[..2] == "ID" && name[2..] == tail;
    assert LowerRun("ID") == "id";
    assert ReplaceCaps(name) == "_" + LowerRun("ID") + ReplaceCaps(tail);
  }

  /** A `.` before a capital is consumed with it; any other `.` stays. */
  lemma SnakeCaseOfDotted()
    ensures SnakeCase("a.B.c") == "a_b.c"
  {
    var c, dc, dotted, name := "c", ".c", ".B.c", "a.B.c";
    assert c == ['c'] + "" && dc == ['.'] + c;
    ReplaceCapsCopies('c', "");
    ReplaceCapsCopies('.', c);
    assert dotted[1..] == "B.c" && "B.c"[1..] == dc;
    assert UpperPrefix(dc) == 0;
    assert UpperPrefix("B.c") == 1;
    assert dotted[1..2] == "B" && dotted[2..] == dc;
    assert LowerRun("B") == "b";
    assert ReplaceCaps(dotted) == "_" + LowerRun("B") + ReplaceCaps(dc);
    assert name == ['a'] + dotted;
    ReplaceCapsCopies('a', dotted);
  }
}
