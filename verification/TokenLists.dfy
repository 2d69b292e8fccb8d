/** Comma-separated lists: server/envconfig.go applyEnvList, and tunnel/server.go headerContains. */
module TokenLists {

  import opened Base

  /** Unicode white space, as strings.TrimSpace takes it off. */
  predicate IsSpace(c: char) {
    || '\t' <= c <= '\r' || c == ' ' || c == '\U{0085}' || c == '\U{00A0}' || c == '\U{1680}'
    || '\U{2000}' <= c <= '\U{200A}' || c == '\U{2028}' || c == '\U{2029}' || c == '\U{202F}'
    || c == '\U{205F}' || c == '\U{3000}'
  }

  function TrimLeft(s: string): string {
    if s != "" && IsSpace(s[0]) then TrimLeft(s[1..]) else s
  }

  function TrimRight(s: string): string {
    if s != "" && IsSpace(s[|s| - 1]) then TrimRight(s[..|s| - 1]) else s
  }

  function Trim(s: string): string {
    TrimRight(TrimLeft(s))
  }

  /** strings.Split at commas; there is always at least one part. */
  function Split(s: string): (parts: seq<string>)
    ensures |parts| >= 1
  {
    if s == "" then [""]
    else
      var rest := Split(s[1..]);
      if s[0] == ',' then [""] + rest else [[s[0]] + rest[0]] + rest[1..]
  }

  function Join(parts: seq<string>): string {
    if |parts| == 0 then ""
    else if |parts| == 1 then parts[0]
    else Glue(parts[0], Join(parts[1..]))
  }

  function Glue(a: string, b: string): string {
    a + "," + b
  }

  // ---------------------------------------------------------------------------------------------
  // applyEnvList

  function KeptParts(parts: seq<string>): seq<string> {
    if |parts| == 0 then []
    else (if Trim(parts[0]) != "" then [Trim(parts[0])] else []) + KeptParts(parts[1..])
  }

  datatype ListResult = Unset | NotJson | List(entries: seq<string>)

  /** `value` is the environment variable, if set; `json` reads an array of strings. */
  method ApplyEnvList(value: Option<string>, json: string -> Option<seq<string>>) returns (r: ListResult)
    ensures value.None? ==> r == Unset
    ensures value.Some? ==>
              var v := Trim(value.value);
              r == if "[" <= v then (if json(v).Some? then List(json(v).value) else NotJson)
                   else List(KeptParts(Split(v)))
  {
    if value.None? {
      return Unset;
    }
    var v := Trim(value.value);
    if "[" <= v {
      var parsed := json(v);
      return if parsed.Some? then List(parsed.value) else NotJson;
    }
    var list := KeepParts(Split(v));
    return List(list);
  }

  method KeepParts(parts: seq<string>) returns (list: seq<string>)
    ensures list == KeptParts(parts)
  {
    list := [];
    for i := 0 to |parts|
      invariant list + KeptParts(parts[i..]) == KeptParts(parts)
    {
      KeptPartsFrom(parts, i);
      ghost var was, rest := list, KeptParts(parts[i + 1..]);
      var trimmed := Trim(parts[i]);
      if trimmed != "" {
        list := list + [trimmed];
        assert was + ([trimmed] + rest) == list + rest;
      } else {
        assert [] + rest == rest;
      }
    }
  }

  lemma KeptPartsFrom(parts: seq<string>, i: nat)
    requires i < |parts|
    ensures KeptParts(parts[i..])
            == (if Trim(parts[i]) != "" then [Trim(parts[i])] else []) + KeptParts(parts[i + 1..])
  {
    assert parts[i..][0] == parts[i] && parts[i..][1..] == parts[i + 1..];
  }

  /** An entry that survives: not empty, no white space at its ends, no comma. */
  predicate Plain(entry: string) {
    entry != "" && !IsSpace(entry[0]) && !IsSpace(entry[|entry| - 1]) && ',' !in entry
  }

  lemma TrimKeeps(s: string)
    ensures s == "" || (!IsSpace(s[0]) && !IsSpace(s[|s| - 1])) ==> Trim(s) == s
  {
  }

  /** Splitting a string joined by a comma splits both halves. */
  lemma {:induction false} SplitConcat(a: string, b: string)
    ensures Split(Glue(a, b)) == Split(a) + Split(b)
  {
    var s := Glue(a, b);
    if a == "" {
      assert s[1..] == b;
    } else {
      assert s[1..] == Glue(a[1..], b) && s[0] == a[0];
      SplitConcat(a[1..], b);
    }
  }

  lemma {:induction false} SplitWhole(s: string)
    requires ',' !in s
    ensures Split(s) == [s]
  {
    if s != "" {
      SplitWhole(s[1..]);
      assert s[0] in s && [s[0]] + s[1..] == s;
    }
  }

  lemma {:induction false} SplitJoined(entries: seq<string>)
    requires forall i :: 0 <= i < |entries| ==> ',' !in entries[i]
    ensures Split(Join(entries)) == if entries == [] then [""] else entries
  {
    if |entries| == 0 {
      SplitWhole("");
    } else if |entries| == 1 {
      SplitWhole(entries[0]);
    } else {
      SplitJoined(entries[1..]);
      SplitWhole(entries[0]);
      SplitConcat(entries[0], Join(entries[1..]));
    }
  }

  lemma {:induction false} JoinedEnds(entries: seq<string>)
    requires entries != [] && forall i :: 0 <= i < |entries| ==> Plain(entries[i])
    ensures Join(entries) != "" && entries[0] <= Join(entries) && !IsSpace(Join(entries)[|Join(entries)| - 1])
  {
    if |entries| > 1 {
      JoinedEnds(entries[1..]);
    }
  }

  lemma {:induction false} PlainPartsKept(entries: seq<string>)
    requires forall i :: 0 <= i < |entries| ==> Plain(entries[i])
    ensures KeptParts(entries) == entries
  {
    if entries != [] {
      TrimKeeps(entries[0]);
      PlainPartsKept(entries[1..]);
    }
  }

  lemma {:induction false} JoinedTrimmed(entries: seq<string>)
    requires entries != [] && forall i :: 0 <= i < |entries| ==> Plain(entries[i])
    ensures Trim(Join(entries)) == Join(entries)
    ensures "[" <= Join(entries) <==> "[" <= entries[0]
  {
    JoinedEnds(entries);
    TrimKeeps(Join(entries));
    SameStart(entries[0], Join(entries));
  }

  lemma SameStart(a: string, b: string)
    requires a != "" && a <= b
    ensures "[" <= a <==> "[" <= b
    ensures IsSpace(a[0]) <==> IsSpace(b[0])
  {
    assert a[0] == b[0];
  }

  lemma NothingKept()
    ensures KeptParts(Split(Trim(""))) == []
  {
    SplitWhole("");
    KeptPartsFrom([""], 0);
    assert [""][0..] == [""] && [""][1..] == [];
  }

  /** Reading back a list joined by commas gives the list. */
  lemma {:induction false} ListRoundTrip(entries: seq<string>)
    requires forall i :: 0 <= i < |entries| ==> Plain(entries[i])
    requires entries != [] ==> !("[" <= entries[0])
    ensures !("[" <= Trim(Join(entries)))
    ensures KeptParts(Split(Trim(Join(entries)))) == entries
  {
    if entries == [] {
      NothingKept();
    } else {
      JoinedTrimmed(entries);
      SplitJoined(entries);
      PlainPartsKept(entries);
    }
  }

  /** Whatever the value, the split branch only ever yields plain entries: the condition of the round trip
      is exactly what the branch can produce. */
  lemma {:induction false} KeptPartsArePlain(parts: seq<string>)
    requires forall i :: 0 <= i < |parts| ==> ',' !in parts[i]
    ensures forall i :: 0 <= i < |KeptParts(parts)| ==> Plain(KeptParts(parts)[i])
  {
    if parts != [] {
      KeptPartsArePlain(parts[1..]);
      TrimmedIsTrim(parts[0]);
    }
  }

  lemma {:induction false} TrimLeftEnds(s: string)
    ensures TrimLeft(s) == "" || !IsSpace(TrimLeft(s)[0])
    ensures forall c :: c in TrimLeft(s) ==> c in s
  {
    if s != "" && IsSpace(s[0]) {
      TrimLeftEnds(s[1..]);
    }
  }

  lemma {:induction false} TrimRightEnds(s: string)
    ensures TrimRight(s) == "" || (TrimRight(s)[0] == s[0] && !IsSpace(TrimRight(s)[|TrimRight(s)| - 1]))
    ensures forall c :: c in TrimRight(s) ==> c in s
    ensures |TrimRight(s)| <= |s|
  {
    if s != "" && IsSpace(s[|s| - 1]) {
      TrimRightEnds(s[..|s| - 1]);
    }
  }

  lemma TrimmedIsTrim(s: string)
    ensures Trim(s) == "" || (!IsSpace(Trim(s)[0]) && !IsSpace(Trim(s)[|Trim(s)| - 1]))
    ensures ',' !in s ==> ',' !in Trim(s)
  {
    TrimLeftEnds(s);
    TrimRightEnds(TrimLeft(s));
  }

  lemma {:induction false} PartsHaveNoComma(s: string)
    ensures forall i :: 0 <= i < |Split(s)| ==> ',' !in Split(s)[i]
  {
    if s != "" {
      PartsHaveNoComma(s[1..]);
    }
  }

  /** So reading, joining and reading again gives the same list, whatever the value was, except exactly when
      its first entry makes the joined list look like JSON. */
  lemma ReadingIsStableIff(value: string)
    ensures var entries := KeptParts(Split(Trim(value)));
            (!("[" <= Trim(Join(entries))) && KeptParts(Split(Trim(Join(entries)))) == entries)
            <==> (entries == [] || !("[" <= entries[0]))
  {
    var entries := KeptParts(Split(Trim(value)));
    PartsHaveNoComma(Trim(value));
    KeptPartsArePlain(Split(Trim(value)));
    if entries == [] || !("[" <= entries[0]) {
      ListRoundTrip(entries);
    } else {
      JoinedTrimmed(entries);
    }
  }

  /** Such a value: a comma before a bracket. It is read as one entry, and that entry alone reads as JSON. */
  lemma RereadingCanDiffer()
    ensures !("[" <= Trim(",[")) && KeptParts(Split(Trim(",["))) == ["["]
    ensures "[" <= Trim(Join(["["]))
  {
    TrimKeeps(",[");
    TrimKeeps("[");
    SplitWhole("");
    SplitWhole("[");
    assert Glue("", "[") == ",[";
    SplitConcat("", "[");
    assert Split(",[") == ["", "["];
    KeptPartsFrom(["", "["], 0);
    KeptPartsFrom(["", "["], 1);
    assert ["", "["][0..] == ["", "["] && ["", "["][2..] == [] && Trim("") == "";
  }

  // ---------------------------------------------------------------------------------------------
  // White space around the entries

  predicate Blank(s: string) {
    forall i :: 0 <= i < |s| ==> IsSpace(s[i])
  }

  /** Nothing that could be taken off. */
  predicate Trimmed(s: string) {
    s == "" || (!IsSpace(s[0]) && !IsSpace(s[|s| - 1]))
  }

  lemma {:induction false} TrimLeftOff(left: string, s: string)
    requires Blank(left)
    ensures TrimLeft(left + s) == TrimLeft(s)
  {
    if left == "" {
      assert left + s == s;
    } else {
      assert (left + s)[0] == left[0] && (left + s)[1..] == left[1..] + s;
      TrimLeftOff(left[1..], s);
    }
  }

  lemma {:induction false} TrimRightOff(s: string, right: string)
    requires Blank(right)
    ensures TrimRight(s + right) == TrimRight(s)
  {
    if right == "" {
      assert s + right == s;
    } else {
      var init := right[..|right| - 1];
      assert (s + right)[..|s + right| - 1] == s + init;
      TrimRightOff(s, init);
    }
  }

  /** Trimming takes off all the white space at both ends, and nothing else. */
  lemma TrimTakesOff(left: string, s: string, right: string)
    requires Blank(left) && Blank(right) && Trimmed(s)
    ensures Trim(left + s + right) == s
  {
    assert left + s + right == left + (s + right);
    TrimLeftOff(left, s + right);
    if s == "" {
      assert s + right == right && right + "" == right;
      TrimLeftOff(right, "");
    } else {
      assert (s + right)[0] == s[0];
      TrimRightOff(s, right);
    }
  }

  lemma {:induction false} TrimIsInside(s: string) returns (left: string, right: string)
    ensures Blank(left) && Blank(right) && Trimmed(Trim(s)) && s == left + Trim(s) + right
  {
    left := CutLeft(s);
    right := CutRight(TrimLeft(s));
    TrimmedIsTrim(s);
    assert left + (Trim(s) + right) == left + Trim(s) + right;
  }

  lemma BlankCons(c: char, s: string)
    requires IsSpace(c) && Blank(s)
    ensures Blank([c] + s) && Blank(s + [c])
  {
  }

  lemma {:induction false} CutLeft(s: string) returns (left: string)
    ensures Blank(left) && s == left + TrimLeft(s)
  {
    if s != "" && IsSpace(s[0]) {
      var rest := CutLeft(s[1..]);
      left := [s[0]] + rest;
      BlankCons(s[0], rest);
      assert s == [s[0]] + s[1..] && [s[0]] + (rest + TrimLeft(s)) == left + TrimLeft(s);
    } else {
      left := "";
    }
  }

  lemma {:induction false} CutRight(s: string) returns (right: string)
    ensures Blank(right) && s == TrimRight(s) + right
  {
    if s != "" && IsSpace(s[|s| - 1]) {
      var rest := CutRight(s[..|s| - 1]);
      right := rest + [s[|s| - 1]];
      BlankCons(s[|s| - 1], rest);
      assert TrimRight(s) + rest + [s[|s| - 1]] == TrimRight(s) + right;
      assert s == s[..|s| - 1] + [s[|s| - 1]];
    } else {
      right := "";
    }
  }

  lemma TrimIgnoresPadding(left: string, s: string, right: string)
    requires Blank(left) && Blank(right)
    ensures Trim(left + s + right) == Trim(s)
  {
    var l, r := TrimIsInside(s);
    assert left + s + right == (left + l) + Trim(s) + (r + right);
    TrimTakesOff(left + l, Trim(s), r + right);
  }

  lemma {:induction false} SplitPaddedLeft(left: string, s: string)
    requires Blank(left)
    ensures Split(left + s) == [left + Split(s)[0]] + Split(s)[1..]
  {
    if left == "" {
      assert left + s == s && left + Split(s)[0] == Split(s)[0];
    } else {
      SplitPaddedLeft(left[1..], s);
      assert (left + s)[0] == left[0] && (left + s)[1..] == left[1..] + s && IsSpace(left[0]);
      assert [left[0]] + (left[1..] + Split(s)[0]) == left + Split(s)[0];
    }
  }

  function PadLast(parts: seq<string>, right: string): seq<string>
    requires parts != []
  {
    parts[..|parts| - 1] + [parts[|parts| - 1] + right]
  }

  lemma PadLastOfMore(first: string, rest: seq<string>, right: string)
    requires rest != []
    ensures PadLast([first] + rest, right) == [first] + PadLast(rest, right)
  {
  }

  lemma PadLastOfLonger(c: char, rest: seq<string>, right: string)
    requires rest != []
    ensures var padded := PadLast(rest, right);
            PadLast([[c] + rest[0]] + rest[1..], right) == [[c] + padded[0]] + padded[1..]
  {
    if |rest| == 1 {
      assert PadLast(rest, right) == [rest[0] + right] && rest[1..] == [];
      assert [c] + (rest[0] + right) == [c] + rest[0] + right;
    } else {
      PadLastOfMore([c] + rest[0], rest[1..], right);
      PadLastOfMore(rest[0], rest[1..], right);
      assert [rest[0]] + rest[1..] == rest;
    }
  }

  lemma {:induction false} SplitPaddedRight(s: string, right: string)
    requires Blank(right)
    ensures Split(s + right) == PadLast(Split(s), right)
  {
    if s == "" {
      SplitPaddedLeft(right, "");
      assert s + right == right && right + "" == right;
    } else {
      SplitPaddedRight(s[1..], right);
      assert (s + right)[0] == s[0] && (s + right)[1..] == s[1..] + right;
      if s[0] == ',' {
        PadLastOfMore("", Split(s[1..]), right);
      } else {
        PadLastOfLonger(s[0], Split(s[1..]), right);
      }
    }
  }

  lemma InThree(x: seq<string>, y: seq<string>, z: seq<string>)
    ensures x + (y + z) == x + y + z
  {
  }

  lemma {:induction false} KeptPartsOfBoth(p: seq<string>, q: seq<string>)
    ensures KeptParts(p + q) == KeptParts(p) + KeptParts(q)
  {
    if p == [] {
      assert p + q == q;
    } else {
      KeptPartsOfBoth(p[1..], q);
      assert (p + q)[0] == p[0] && (p + q)[1..] == p[1..] + q;
      InThree(if Trim(p[0]) != "" then [Trim(p[0])] else [], KeptParts(p[1..]), KeptParts(q));
    }
  }

  lemma {:induction false} KeptPartPadded(left: string, s: string, right: string)
    requires Blank(left) && Blank(right)
    ensures KeptParts([left + s + right]) == KeptParts([s])
  {
    TrimIgnoresPadding(left, s, right);
    KeptPartsFrom([left + s + right], 0);
    KeptPartsFrom([s], 0);
    assert [left + s + right][0..] == [left + s + right] && [s][0..] == [s];
  }

  /** Trimming the whole value first makes no difference to the entries. */
  lemma {:induction false} TrimmedFirst(value: string)
    ensures KeptParts(Split(Trim(value))) == KeptParts(Split(value))
  {
    var left, right := TrimIsInside(value);
    var inner := Trim(value);
    assert value == left + (inner + right) by {
      assert left + inner + right == left + (inner + right);
    }
    PaddedRight(inner, right);
    PaddedLeft(left, inner + right);
  }

  lemma {:induction false} PaddedLeft(left: string, s: string)
    requires Blank(left)
    ensures KeptParts(Split(left + s)) == KeptParts(Split(s))
  {
    var parts := Split(s);
    SplitPaddedLeft(left, s);
    KeptPartsOfBoth([left + parts[0]], parts[1..]);
    KeptPartsOfBoth([parts[0]], parts[1..]);
    KeptPartPadded(left, parts[0], "");
    assert left + parts[0] + "" == left + parts[0] && [parts[0]] + parts[1..] == parts;
  }

  lemma {:induction false} PaddedRight(s: string, right: string)
    requires Blank(right)
    ensures KeptParts(Split(s + right)) == KeptParts(Split(s))
  {
    var parts := Split(s);
    var init, last := parts[..|parts| - 1], parts[|parts| - 1];
    SplitPaddedRight(s, right);
    KeptPartsOfBoth(init, [last + right]);
    KeptPartsOfBoth(init, [last]);
    KeptPartPadded("", last, right);
    assert "" + last + right == last + right && init + [last] == parts;
  }

  predicate Padded(part: string, left: string, entry: string, right: string) {
    part == left + entry + right && Blank(left) && Blank(right)
  }

  function NonEmpty(entries: seq<string>): seq<string> {
    if entries == [] then []
    else (if entries[0] != "" then [entries[0]] else []) + NonEmpty(entries[1..])
  }

  /** Reading a list whose entries have white space around them gives the entries, in order and without the
      empty ones. */
  lemma {:induction false} PaddedListRead(parts: seq<string>, lefts: seq<string>, entries: seq<string>, rights: seq<string>)
    requires |parts| == |lefts| == |entries| == |rights|
    requires forall i :: 0 <= i < |parts| ==> ',' !in parts[i] && Padded(parts[i], lefts[i], entries[i], rights[i])
    requires forall i :: 0 <= i < |parts| ==> Trimmed(entries[i])
    ensures KeptParts(parts) == NonEmpty(entries)
    ensures KeptParts(Split(Trim(Join(parts)))) == NonEmpty(entries)
  {
    if parts != [] {
      TrimTakesOff(lefts[0], entries[0], rights[0]);
      PaddedListRead(parts[1..], lefts[1..], entries[1..], rights[1..]);
      SplitJoined(parts);
      TrimmedFirst(Join(parts));
    } else {
      NothingKept();
    }
  }

  // ---------------------------------------------------------------------------------------------
  // headerContains

  /** strings.EqualFold, with `fold` taking each character to one that stands for all its cases. */
  predicate EqualFold(fold: char -> char, s: string, t: string) {
    |s| == |t| && forall i :: 0 <= i < |s| ==> fold(s[i]) == fold(t[i])
  }

  predicate HasToken(fold: char -> char, parts: seq<string>, token: string) {
    exists i :: 0 <= i < |parts| && EqualFold(fold, Trim(parts[i]), token)
  }

  predicate Contains(fold: char -> char, lines: seq<string>, token: string) {
    exists i :: 0 <= i < |lines| && HasToken(fold, Split(lines[i]), token)
  }

  method HeaderContains(fold: char -> char, header: seq<string>, token: string) returns (found: bool)
    ensures found == Contains(fold, header, token)
  {
    for i := 0 to |header|
      invariant forall k :: 0 <= k < i ==> !HasToken(fold, Split(header[k]), token)
    {
      var parts := Split(header[i]);
      for j := 0 to |parts|
        invariant forall k :: 0 <= k < j ==> !EqualFold(fold, Trim(parts[k]), token)
      {
        if EqualFold(fold, Trim(parts[j]), token) {
          assert HasToken(fold, Split(header[i]), token);
          return true;
        }
      }
    }
    return false;
  }

  /** What it means: on some line, some part between commas is the token with white space around it, letter by
      letter up to case. */
  lemma {:induction false} ContainsIff(fold: char -> char, lines: seq<string>, token: string)
    ensures Contains(fold, lines, token)
            <==> exists i, part, left, word, right ::
                   && 0 <= i < |lines| && part in Split(lines[i])
                   && Padded(part, left, word, right) && Trimmed(word)
                   && |word| == |token| && forall k :: 0 <= k < |word| ==> fold(word[k]) == fold(token[k])
  {
    if Contains(fold, lines, token) {
      var i :| 0 <= i < |lines| && HasToken(fold, Split(lines[i]), token);
      var j :| 0 <= j < |Split(lines[i])| && EqualFold(fold, Trim(Split(lines[i])[j]), token);
      var part := Split(lines[i])[j];
      var left, right := TrimIsInside(part);
      assert part in Split(lines[i]) && Padded(part, left, Trim(part), right);
    }
    if i, part, left, word, right :|
         && 0 <= i < |lines| && part in Split(lines[i])
         && Padded(part, left, word, right) && Trimmed(word)
         && |word| == |token| && forall k :: 0 <= k < |word| ==> fold(word[k]) == fold(token[k])
    {
      TrimTakesOff(left, word, right);
      var j :| 0 <= j < |Split(lines[i])| && Split(lines[i])[j] == part;
      assert EqualFold(fold, Trim(Split(lines[i])[j]), token);
      assert HasToken(fold, Split(lines[i]), token);
    }
  }

  lemma HasTokenConcat(fold: char -> char, p: seq<string>, q: seq<string>, token: string)
    ensures HasToken(fold, p + q, token) == (HasToken(fold, p, token) || HasToken(fold, q, token))
  {
    if HasToken(fold, p, token) {
      var i :| 0 <= i < |p| && EqualFold(fold, Trim(p[i]), token);
      assert (p + q)[i] == p[i];
    }
    if HasToken(fold, q, token) {
      var i :| 0 <= i < |q| && EqualFold(fold, Trim(q[i]), token);
      assert (p + q)[|p| + i] == q[i];
    }
  }

  lemma {:induction false} ContainsCons(fold: char -> char, line: string, rest: seq<string>, token: string)
    ensures Contains(fold, [line] + rest, token) == (HasToken(fold, Split(line), token) || Contains(fold, rest, token))
  {
    var lines := [line] + rest;
    if HasToken(fold, Split(line), token) {
      assert lines[0] == line;
    }
    if Contains(fold, rest, token) {
      var i :| 0 <= i < |rest| && HasToken(fold, Split(rest[i]), token);
      assert lines[i + 1] == rest[i];
    }
  }

  lemma {:induction false} SameJoined(fold: char -> char, lines: seq<string>, token: string)
    requires lines != []
    ensures Contains(fold, lines, token) == Contains(fold, [Join(lines)], token)
  {
    ContainsCons(fold, lines[0], lines[1..], token);
    assert [lines[0]] + lines[1..] == lines;
    ContainsCons(fold, Join(lines), [], token);
    assert [Join(lines)] + [] == [Join(lines)];
    if |lines| > 1 {
      SameJoined(fold, lines[1..], token);
      SplitConcat(lines[0], Join(lines[1..]));
      HasTokenConcat(fold, Split(lines[0]), Split(Join(lines[1..])), token);
      ContainsCons(fold, Join(lines[1..]), [], token);
      assert [Join(lines[1..])] + [] == [Join(lines[1..])];
    }
  }

  /** Several field lines and the one line that joins them by commas give the same answer, except when there
      is no line at all and the token is empty. */
  lemma {:induction false} LinesCombineIff(fold: char -> char, lines: seq<string>, token: string)
    ensures Contains(fold, lines, token) == Contains(fold, [Join(lines)], token) <==> lines != [] || token != ""
  {
    if lines != [] {
      SameJoined(fold, lines, token);
    } else {
      assert Split("") == [""] && Trim("") == "";
      assert [Join(lines)][0] == "" && Split("")[0] == "";
      assert HasToken(fold, Split(""), token) == EqualFold(fold, "", token);
    }
  }
}
