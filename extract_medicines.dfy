/** Matching OCR text against the catalogue (server/src/utils/extractMedicines.js):
    which known medicines the text names, and which short lines of the text
    are worth showing as candidates. */
module ExtractMedicines {
  import opened Common
  import opened Seqs
  import opened Text
  import opened MedicineModel

  // ---------------------------------------------------------------------------
  // escapeRegExp

  /** The characters `escapeRegExp` protects: . * + ? ^ $ { } ( ) | [ ] \ */
  predicate IsRegexMeta(c: char)
  {
    c == '.' || c == '*' || c == '+' || c == '?' || c == '^' || c == '$' || c == '{' || c == '}' ||
    c == '(' || c == ')' || c == '|' || c == '[' || c == ']' || c == '\\'
  }

  /** `escapeRegExp(s)`: a backslash before every metacharacter. */
  function EscapeRegExp(s: string): (r: string)
    ensures |r| >= |s|
    decreases |s|
  {
    if s == [] then []
    else (if IsRegexMeta(s[0]) then ['\\', s[0]] else [s[0]]) + EscapeRegExp(s[1..])
  }

  /** How the regular-expression engine reads an escaped pattern back: a
      backslash stands for the character after it. */
  function Unescape(e: string): string
    decreases |e|
  {
    if e == [] then []
    else if e[0] == '\\' && |e| >= 2 then [e[1]] + Unescape(e[2..])
    else [e[0]] + Unescape(e[1..])
  }

  /** The escaped pattern denotes the original text literally, so the
      regular expression built from it is a plain substring test. */
  lemma {:induction false} EscapeRoundTrip(s: string)
    ensures Unescape(EscapeRegExp(s)) == s
    decreases |s|
  {
    if s != [] {
      EscapeRoundTrip(s[1..]);
      var rest := EscapeRegExp(s[1..]);
      if IsRegexMeta(s[0]) {
        assert EscapeRegExp(s) == ['\\', s[0]] + rest;
        assert (['\\', s[0]] + rest)[2..] == rest;
      } else {
        assert EscapeRegExp(s) == [s[0]] + rest;
        assert ([s[0]] + rest)[1..] == rest;
      }
    }
  }

  /** Text without metacharacters is left as it is. */
  lemma {:induction false} EscapePlain(s: string)
    requires forall i :: 0 <= i < |s| ==> !IsRegexMeta(s[i])
    ensures EscapeRegExp(s) == s
    decreases |s|
  {
    if s != [] {
      EscapePlain(s[1..]);
    }
  }

  // ---------------------------------------------------------------------------
  // Word-boundary matching of names

  /** A regular-expression word character: [A-Za-z0-9_]. */
  predicate IsWordChar(c: char)
  {
    'a' <= c <= 'z' || 'A' <= c <= 'Z' || '0' <= c <= '9' || c == '_'
  }

  /** `\b` at position `k` of `t`: a word character on exactly one side. */
  predicate BoundaryAt(t: string, k: int)
  {
    0 <= k <= |t| &&
    (if k == 0 then |t| > 0 && IsWordChar(t[0])
     else if k == |t| then IsWordChar(t[k - 1])
     else IsWordChar(t[k - 1]) != IsWordChar(t[k]))
  }

  /** `(^|\b)name(\b|$)` matches at `i`. */
  predicate WordMatchAt(t: string, name: string, i: int)
  {
    OccursAt(t, name, i) &&
    (i == 0 || BoundaryAt(t, i)) &&
    (i + |name| == |t| || BoundaryAt(t, i + |name|))
  }

  /** The test `rx.test(text)` for a medicine name, with both sides
      lower-cased. */
  predicate NameMatches(text: string, name: string)
  {
    var t := Lower(text);
    var n := Lower(name);
    exists i :: 0 <= i <= |t| - |n| && WordMatchAt(t, n, i)
  }

  /** A name that matches occurs in the text. */
  lemma NameMatchContains(text: string, name: string)
    requires NameMatches(text, name)
    ensures Contains(Lower(text), Lower(name))
  {
    var t := Lower(text);
    var n := Lower(name);
    var i :| 0 <= i <= |t| - |n| && WordMatchAt(t, n, i);
    assert OccursAt(t, n, i);
  }

  /** A name standing alone between spaces matches; the same letters inside
      a longer word do not. */
  lemma WordMatchExamples()
    ensures NameMatches("take dolo 650", "dolo")
    ensures !NameMatches("dolor", "dolo")
  {
    assert WordMatchAt(Lower("take dolo 650"), Lower("dolo"), 5) by {
      assert Lower("take dolo 650")[5..9] == "dolo";
    }
    var t := Lower("dolor");
    assert t == "dolor";
    assert Lower("dolo") == "dolo";
    forall i | 0 <= i <= 1 ensures !WordMatchAt(t, "dolo", i) {
      if i == 1 {
        assert t[1..5] == "olor";
      }
    }
  }

  // ---------------------------------------------------------------------------
  // The matched medicines

  /** The catalogue medicines whose name the text contains as a word, in
      catalogue order. */
  function Matches(text: string, known: seq<Medicine>): (r: seq<Medicine>)
    ensures forall m :: m in r <==> m in known && NameMatches(text, m.name)
    ensures IsSubsequence(r, known)
    decreases |known|
  {
    if known == [] then []
    else
      var init := known[..|known| - 1];
      var m := known[|known| - 1];
      assert known == init + [m];
      var r := Matches(text, init);
      if NameMatches(text, m.name) then
        SubsequenceAppend(r, init, m);
        r + [m]
      else
        SubsequenceExtend(r, init, m);
        r
  }

  /** The de-duplication key: a stored medicine always has an id. */
  function MedKey(m: Medicine): MedId
  {
    m.id
  }

  // ---------------------------------------------------------------------------
  // Candidate lines

  /** `text.split(sep)`: the pieces between separators, at least one. */
  function Split(s: string, sep: char): (r: seq<string>)
    ensures |r| >= 1
    ensures forall k :: 0 <= k < |r| ==> sep !in r[k]
    decreases |s|
  {
    if s == [] then [""]
    else
      var rest := Split(s[1..], sep);
      if s[0] == sep then [""] + rest
      else [[s[0]] + rest[0]] + rest[1..]
  }

  /** Joining the pieces with the separator gives the text back. */
  lemma {:induction false} SplitJoin(s: string, sep: char)
    ensures Join(Split(s, sep), [sep]) == s
    decreases |s|
  {
    if s != [] {
      SplitJoin(s[1..], sep);
      var rest := Split(s[1..], sep);
      if s[0] == sep {
        assert Split(s, sep) == [""] + rest;
        assert ([""] + rest)[1..] == rest;
      } else {
        var r := Split(s, sep);
        assert r == [[s[0]] + rest[0]] + rest[1..];
        if |rest| > 1 {
          assert r[1..] == rest[1..];
          assert Join(rest, [sep]) == rest[0] + [sep] + Join(rest[1..], [sep]);
        }
      }
    }
  }

  /** Appending one character to a text: its trimmed start grows by that
      character unless the text is all white space. */
  lemma {:induction false} TrimStartAppend(s: string, c: char)
    ensures TrimStart(s + [c]) == if TrimStart(s) == [] then TrimStart([c]) else TrimStart(s) + [c]
    decreases |s|
  {
    if s != [] {
      assert (s + [c])[1..] == s[1..] + [c];
      if IsSpace(s[0]) {
        TrimStartAppend(s[1..], c);
      }
    } else {
      assert s + [c] == [c];
    }
  }

  /** A trailing white-space character does not survive `trimEnd`. */
  lemma TrimEndAppendSpace(s: string, c: char)
    requires IsSpace(c)
    ensures TrimEnd(s + [c]) == TrimEnd(s)
  {
    assert (s + [c])[..|s|] == s;
  }

  /** `/\r?\n/` also drops a carriage return before the line feed; trimming
      each line removes it anyway, so splitting on the line feed alone and
      trimming gives the same lines. */
  lemma TrimDropsCarriageReturn(line: string)
    ensures Trim(line + ['\r']) == Trim(line)
  {
    TrimStartAppend(line, '\r');
    if TrimStart(line) == [] {
      assert TrimStart(['\r']) == TrimStart(['\r'][1..]);
    } else {
      TrimEndAppendSpace(TrimStart(line), '\r');
    }
  }

  /** The lines of the text, trimmed, blank ones dropped. */
  function NonBlankLines(text: string): seq<string>
  {
    Filter(TrimAll(Split(text, '\n')), (l: string) => l != "")
  }

  function TrimAll(lines: seq<string>): (r: seq<string>)
    ensures |r| == |lines| && forall k :: 0 <= k < |lines| ==> r[k] == Trim(lines[k])
  {
    seq(|lines|, k requires 0 <= k < |lines| => Trim(lines[k]))
  }

  predicate IsAlnum(c: char)
  {
    'a' <= c <= 'z' || 'A' <= c <= 'Z' || '0' <= c <= '9'
  }

  /** `.replace(/[^a-z0-9\s]/gi, " ")`. */
  function BlankNonAlnum(s: string): (r: string)
    ensures |r| == |s|
    ensures forall i :: 0 <= i < |s| ==> r[i] == (if IsAlnum(s[i]) || IsSpace(s[i]) then s[i] else ' ')
  {
    seq(|s|, i requires 0 <= i < |s| => if IsAlnum(s[i]) || IsSpace(s[i]) then s[i] else ' ')
  }

  /** No two neighbouring characters are both white space. */
  predicate NoDoubleSpace(s: string)
  {
    forall i :: 0 <= i < |s| - 1 ==> !DoubleSpaceAt(s, i)
  }

  predicate DoubleSpaceAt(s: string, i: nat)
    requires i < |s| - 1
  {
    IsSpace(s[i]) && IsSpace(s[i + 1])
  }

  lemma NoDoubleSpaceCons(c: char, rest: string)
    requires NoDoubleSpace(rest)
    requires rest == [] || !IsSpace(c) || !IsSpace(rest[0])
    ensures NoDoubleSpace([c] + rest)
  {
    var s := [c] + rest;
    forall i | 0 <= i < |s| - 1 ensures !DoubleSpaceAt(s, i) {
      if i > 0 {
        assert s[i] == rest[i - 1] && s[i + 1] == rest[i];
        assert !DoubleSpaceAt(rest, i - 1);
      }
    }
  }

  /** `.replace(/\s+/g, " ")`: every run of white space becomes one space. */
  function CollapseSpaces(s: string): (r: string)
    ensures |r| <= |s|
    ensures r == [] <==> s == []
    ensures r != [] ==> (IsSpace(r[0]) <==> IsSpace(s[0]))
    ensures NoDoubleSpace(r)
    ensures forall i :: 0 <= i < |r| && IsSpace(r[i]) ==> r[i] == ' '
    decreases |s|
  {
    if s == [] then []
    else if IsSpace(s[0]) then
      var t := TrimStart(s);
      assert t == TrimStart(s[1..]);
      var rest := CollapseSpaces(t);
      NoDoubleSpaceCons(' ', rest);
      [' '] + rest
    else
      var rest := CollapseSpaces(s[1..]);
      NoDoubleSpaceCons(s[0], rest);
      [s[0]] + rest
  }

  /** Only letters, digits and white space. */
  predicate AlnumOrSpace(s: string)
  {
    forall i :: 0 <= i < |s| ==> IsAlnum(s[i]) || IsSpace(s[i])
  }
  lemma {:induction false} CollapseKeepsAlnum(s: string)
    requires AlnumOrSpace(s)
    ensures AlnumOrSpace(CollapseSpaces(s))
    decreases |s|
  {
    if s != [] {
      if IsSpace(s[0]) {
        var t := TrimStart(s);
        assert AlnumOrSpace(t) by {
          forall i | 0 <= i < |t| ensures IsAlnum(t[i]) || IsSpace(t[i]) {
            assert t[i] == s[|s| - |t| + i];
          }
        }
        CollapseKeepsAlnum(t);
      } else {
        assert AlnumOrSpace(s[1..]) by {
          forall i | 0 <= i < |s| - 1 ensures IsAlnum(s[1..][i]) || IsSpace(s[1..][i]) {
            assert s[1..][i] == s[i + 1];
          }
        }
        CollapseKeepsAlnum(s[1..]);
      }
    }
  }

  /** A piece of a text without doubled spaces has none either. */
  lemma NoDoubleSpaceSlice(s: string, i: nat, j: nat)
    requires NoDoubleSpace(s) && i <= j <= |s|
    ensures NoDoubleSpace(s[i..j])
  {
    forall k | 0 <= k < j - i - 1 ensures !DoubleSpaceAt(s[i..j], k) {
      assert s[i..j][k] == s[i + k] && s[i..j][k + 1] == s[i + k + 1];
      assert !DoubleSpaceAt(s, i + k);
    }
  }

  /** One candidate line cleaned: non-alphanumerics blanked, white space
      collapsed, trimmed. */
  function CleanLine(line: string): (r: string)
    ensures |r| <= |line|
  {
    Trim(CollapseSpaces(BlankNonAlnum(line)))
  }

  /** Only letters, digits and plain spaces. */
  predicate AlnumOrBlank(s: string)
  {
    forall i :: 0 <= i < |s| ==> IsAlnum(s[i]) || s[i] == ' '
  }

  /** After collapsing, the characters are letters, digits or plain spaces. */
  lemma CollapsedChars(line: string)
    ensures AlnumOrBlank(CollapseSpaces(BlankNonAlnum(line)))
  {
    CollapseKeepsAlnum(BlankNonAlnum(line));
  }

  /** Trimming cuts a piece out of the text, so no doubled space appears. */
  lemma TrimKeepsNoDoubleSpace(c: string)
    requires NoDoubleSpace(c)
    ensures NoDoubleSpace(Trim(c))
  {
    var ts := TrimStart(c);
    var k := |c| - |ts|;
    assert ts == c[k..|c|];
    NoDoubleSpaceSlice(c, k, |c|);
    var r := TrimEnd(ts);
    assert r == ts[0..|r|];
    NoDoubleSpaceSlice(ts, 0, |r|);
  }

  /** Trimming keeps only characters of the text. */
  lemma TrimKeepsAlnumBlank(c: string)
    requires AlnumOrBlank(c)
    ensures AlnumOrBlank(Trim(c))
  {
    var ts := TrimStart(c);
    var k := |c| - |ts|;
    assert AlnumOrBlank(ts) by {
      forall i | 0 <= i < |ts| ensures IsAlnum(ts[i]) || ts[i] == ' ' {
        assert ts[i] == c[k + i];
      }
    }
    var r := TrimEnd(ts);
    forall i | 0 <= i < |r| ensures IsAlnum(r[i]) || r[i] == ' ' {
      assert r[i] == ts[i];
    }
  }

  /** A cleaned line holds letters, digits and single spaces only, and
      neither starts nor ends with white space. */
  lemma CleanLineSpec(line: string)
    ensures var r := CleanLine(line);
      AlnumOrBlank(r) && NoDoubleSpace(r) && (r == [] || (!IsSpace(r[0]) && !IsSpace(r[|r| - 1])))
  {
    var c := CollapseSpaces(BlankNonAlnum(line));
    CollapsedChars(line);
    TrimKeepsNoDoubleSpace(c);
    TrimKeepsAlnumBlank(c);
  }

  /** The cleaned, non-empty forms of the lines of length 3 to 40, in
      order, repeats included. */
  function Cleaned(lines: seq<string>): (r: seq<string>)
    ensures forall k :: 0 <= k < |r| ==> r[k] != "" && |r[k]| <= 40
    decreases |lines|
  {
    if lines == [] then []
    else
      var ln := lines[|lines| - 1];
      var c := CleanLine(ln);
      Cleaned(lines[..|lines| - 1]) + (if 3 <= |ln| <= 40 && c != "" then [c] else [])
  }

  function SameText(s: string): string
  {
    s
  }

  /** The candidates: the cleaned lines without repeats, in the order first
      seen (a `Set`), at most 25. */
  function Candidates(text: string): (r: seq<string>)
  {
    Take(UniqueBy(Cleaned(NonBlankLines(text)), SameText), 25)
  }

  /** Candidates are distinct, non-empty, at most 40 characters, at most 25,
      and all come from the text's cleaned lines. */
  lemma CandidatesSpec(text: string)
    ensures var r := Candidates(text);
      |r| <= 25 &&
      (forall i, j :: 0 <= i < j < |r| ==> r[i] != r[j]) &&
      (forall k :: 0 <= k < |r| ==> r[k] != "" && |r[k]| <= 40) &&
      (forall c :: c in r ==> c in Cleaned(NonBlankLines(text)))
  {
    FirstDistinct(Cleaned(NonBlankLines(text)));
  }

  /** The first 25 distinct cleaned lines. */
  lemma FirstDistinct(all: seq<string>)
    requires forall k :: 0 <= k < |all| ==> all[k] != "" && |all[k]| <= 40
    ensures var r := Take(UniqueBy(all, SameText), 25);
      |r| <= 25 &&
      (forall i, j :: 0 <= i < j < |r| ==> r[i] != r[j]) &&
      (forall k :: 0 <= k < |r| ==> r[k] != "" && |r[k]| <= 40) &&
      (forall c :: c in r ==> c in all)
  {
    var u := UniqueBy(all, SameText);
    UniqueByProperties(all, SameText);
    SubsequenceMembers(u, all);
    var r := Take(u, 25);
    forall i, j | 0 <= i < j < |r| ensures r[i] != r[j] {
      assert r[i] == u[i] && r[j] == u[j];
      assert SameText(u[i]) != SameText(u[j]);
    }
    forall k | 0 <= k < |r| ensures r[k] != "" && |r[k]| <= 40 {
      assert r[k] == u[k];
      assert u[k] in all;
    }
  }

  // ---------------------------------------------------------------------------
  // The loops

  /** `uniqueBy(arr, keyFn)` by medicine id, with its `seen` set. */
  method UniqueByLoop(arr: seq<Medicine>) returns (out: seq<Medicine>)
    ensures out == UniqueBy(arr, MedKey)
  {
    var seen: set<MedId> := {};
    out := [];
    var i := 0;
    while i < |arr|
      invariant 0 <= i <= |arr|
      invariant out == UniqueBy(arr[..i], MedKey)
      invariant seen == KeySet(out, MedKey)
    {
      assert arr[..i + 1][..i] == arr[..i];
      var k := MedKey(arr[i]);
      if k !in seen {
        KeySetAppend(out, arr[i], MedKey);
        seen := seen + {k};
        out := out + [arr[i]];
      }
      i := i + 1;
    }
    assert arr[..i] == arr;
  }

  /** The first loop: every known medicine whose name the text contains as a
      word. */
  method MatchLoop(text: string, known: seq<Medicine>) returns (matches: seq<Medicine>)
    ensures matches == Matches(text, known)
  {
    matches := [];
    var i := 0;
    while i < |known|
      invariant 0 <= i <= |known|
      invariant matches == Matches(text, known[..i])
    {
      assert known[..i + 1][..i] == known[..i];
      if NameMatches(text, known[i].name) {
        matches := matches + [known[i]];
      }
      i := i + 1;
    }
    assert known[..i] == known;
  }

  /** The second loop: the `candidates` set, in insertion order. */
  method CandidateLoop(lines: seq<string>) returns (out: seq<string>)
    ensures out == UniqueBy(Cleaned(lines), SameText)
  {
    var seen: set<string> := {};
    ghost var done: seq<string> := [];
    out := [];
    var i := 0;
    while i < |lines|
      invariant 0 <= i <= |lines|
      invariant done == Cleaned(lines[..i])
      invariant out == UniqueBy(done, SameText) && seen == KeySet(out, SameText)
    {
      var ln := lines[i];
      var cleaned := CleanLine(ln);
      var keep := 3 <= |ln| <= 40 && cleaned != "";
      CleanedStep(lines, i, cleaned, keep);
      if keep {
        out, seen := AddCandidate(done, out, seen, cleaned);
        done := done + [cleaned];
      }
      i := i + 1;
    }
    assert lines[..i] == lines;
  }

  /** Adds `c` to the candidates unless already seen. */
  method AddCandidate(ghost prev: seq<string>, out: seq<string>, seen: set<string>, c: string)
    returns (out': seq<string>, seen': set<string>)
    requires out == UniqueBy(prev, SameText) && seen == KeySet(out, SameText)
    ensures out' == UniqueBy(prev + [c], SameText) && seen' == KeySet(out', SameText)
  {
    UniqueByAppend(prev, c, SameText);
    KeySetAppend(out, c, SameText);
    if c !in seen {
      out' := out + [c];
    } else {
      out' := out;
    }
    seen' := seen + {c};
  }

  lemma CleanedStep(lines: seq<string>, i: nat, c: string, keep: bool)
    requires i < |lines| && c == CleanLine(lines[i])
    requires keep == (3 <= |lines[i]| <= 40 && c != "")
    ensures Cleaned(lines[..i + 1]) == Cleaned(lines[..i]) + (if keep then [c] else [])
  {
    assert lines[..i + 1][..i] == lines[..i];
  }

  /** `(rawText || "").toLowerCase()`. */
  function SearchText(rawText: Option<string>): (r: string)
    ensures |r| == if rawText.Some? then |rawText.value| else 0
  {
    Lower(if rawText.Some? then rawText.value else "")
  }

  /** `matchMedicinesFromText(rawText, known)`: a missing text counts as "";
      the text is lower-cased; the matched medicines are de-duplicated by
      id, keeping the first; the candidates are cut to 25. */
  method MatchMedicinesFromText(rawText: Option<string>, known: seq<Medicine>)
    returns (matched: seq<Medicine>, candidates: seq<string>)
    ensures matched == UniqueBy(Matches(SearchText(rawText), known), MedKey)
    ensures candidates == Candidates(SearchText(rawText))
  {
    var text := SearchText(rawText);
    var matches := MatchLoop(text, known);
    matched := UniqueByLoop(matches);
    var all := CandidateLoop(NonBlankLines(text));
    candidates := Take(all, 25);
  }

  /** The matched list holds each matching catalogue medicine once, in
      catalogue order. */
  lemma MatchedSpec(text: string, known: seq<Medicine>)
    ensures var r := UniqueBy(Matches(text, known), MedKey);
      DistinctKeys(r, MedKey) && IsSubsequence(r, known) &&
      (forall m :: m in r ==> m in known && NameMatches(text, m.name))
  {
    var ms := Matches(text, known);
    UniqueByProperties(ms, MedKey);
    SubsequenceTrans(UniqueBy(ms, MedKey), ms, known);
    SubsequenceMembers(UniqueBy(ms, MedKey), ms);
  }
}
