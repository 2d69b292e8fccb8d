/** tunnel/customheaders.go: the configured headers put on a request to the local server. */
module CustomHeaders {

  import opened Base

  // ---------------------------------------------------------------------------------------------
  // Names

  predicate IsLetter(c: char) {
    'a' <= c <= 'z' || 'A' <= c <= 'Z'
  }

  predicate IsTokenRune(c: char) {
    IsLetter(c) || '0' <= c <= '9' || c in "!#$%&'*+-.^_`|~"
  }

  /** A token of section 5.6.2 of RFC 9110, or nothing. */
  predicate ValidHeaderName(name: string) {
    forall i :: 0 <= i < |name| ==> IsTokenRune(name[i])
  }

  function Upper(c: char): char {
    if 'a' <= c <= 'z' then c - 'a' + 'A' else c
  }

  function Lower(c: char): char {
    if 'A' <= c <= 'Z' then c - 'A' + 'a' else c
  }

  function Capitalized(name: string, start: bool): string {
    if name == "" then ""
    else [if start then Upper(name[0]) else Lower(name[0])] + Capitalized(name[1..], name[0] == '-')
  }

  /** textproto.CanonicalMIMEHeaderKey leaves a name that is not a token as it is. */
  function Canonical(name: string): string {
    if ValidHeaderName(name) then Capitalized(name, true) else name
  }

  /** strings.EqualFold(name, "Host"): the only characters that fold to those four letters. */
  predicate IsHost(name: string) {
    && |name| == 4
    && name[0] in "hH" && name[1] in "oO" && (name[2] in "sS" || name[2] == '\U{017F}') && name[3] in "tT"
  }

  // ---------------------------------------------------------------------------------------------
  // Validation

  predicate Acceptable(name: string, value: string) {
    name != "" && ValidHeaderName(name) && '\r' !in value && '\n' !in value
  }

  /** Accepted exactly when every name is a non-empty token and no value breaks the line, in whatever order
      the map is read. */
  method ValidateCustomHeaders(headers: map<string, string>) returns (ok: bool)
    ensures ok <==> forall name :: name in headers ==> Acceptable(name, headers[name])
  {
    var todo := headers.Keys;
    while todo != {}
      invariant todo <= headers.Keys
      invariant forall name :: name in headers && name !in todo ==> Acceptable(name, headers[name])
      decreases todo
    {
      var name :| name in todo;
      todo := todo - {name};
      if name == "" {
        return false;
      }
      var valid := NameIsToken(name);
      if Canonical(name) == "" || !valid {
        assert Canonical(name) == "" ==> name == "";
        return false;
      }
      if '\r' in headers[name] || '\n' in headers[name] {
        return false;
      }
    }
    return true;
  }

  method NameIsToken(name: string) returns (ok: bool)
    ensures ok == ValidHeaderName(name)
  {
    for i := 0 to |name|
      invariant forall j :: 0 <= j < i ==> IsTokenRune(name[j])
    {
      if !IsTokenRune(name[i]) {
        return false;
      }
    }
    return true;
  }

  // ---------------------------------------------------------------------------------------------
  // Application

  /** Where a configured header goes: to the request's Host field, or under its canonical name. */
  datatype Slot = HostField | Header(name: string)

  function SlotOf(name: string): Slot {
    if IsHost(name) then HostField else Header(Canonical(name))
  }

  datatype Message = Message(host: string, header: map<string, seq<string>>)

  function Read(m: Message, slot: Slot): Option<seq<string>> {
    match slot
    case HostField => Some([m.host])
    case Header(name) => Get(m.header, name)
  }

  function Set(m: Message, name: string, value: string): Message {
    if IsHost(name) then m.(host := value) else m.(header := m.header[Canonical(name) := [value]])
  }

  function SetAll(m: Message, headers: map<string, string>, order: seq<string>): Message
    requires forall name :: name in order ==> name in headers
  {
    if order == [] then m
    else
      var init, last := order[..|order| - 1], order[|order| - 1];
      Set(SetAll(m, headers, init), last, headers[last])
  }

  class Request {
    var host: string
    var header: map<string, seq<string>>
    var path: string

    function Model(): Message
      reads this`host, this`header
    {
      Message(host, header)
    }

    constructor (host: string, header: map<string, seq<string>>, path: string)
      ensures Model() == Message(host, header) && this.path == path
    {
      this.host, this.header, this.path := host, header, path;
    }
  }

  method SetOne(r: Request, name: string, value: string)
    modifies r`host, r`header
    ensures r.Model() == Set(old(r.Model()), name, value)
  {
    if IsHost(name) {
      r.host := value;
    } else {
      r.header := r.header[Canonical(name) := [value]];
    }
  }

  /** Reads the map in some order; nothing but Host and the header map changes. */
  method ApplyCustomHeaders(r: Request, headers: map<string, string>) returns (ghost order: seq<string>)
    modifies r`host, r`header
    ensures IsOrder(headers, order) && r.Model() == SetAll(old(r.Model()), headers, order)
  {
    order := [];
    var todo := headers.Keys;
    while todo != {}
      invariant todo <= headers.Keys
      invariant forall name :: name in order <==> name in headers && name !in todo
      invariant forall i, j :: 0 <= i < j < |order| ==> order[i] != order[j]
      invariant r.Model() == SetAll(old(r.Model()), headers, order)
      decreases todo
    {
      var name :| name in todo;
      todo := todo - {name};
      SetAllOneMore(old(r.Model()), headers, order, name);
      SetOne(r, name, headers[name]);
      order := order + [name];
    }
  }

  lemma {:induction false} SetAllOneMore(m: Message, headers: map<string, string>, order: seq<string>, name: string)
    requires name in headers && forall n :: n in order ==> n in headers
    ensures SetAll(m, headers, order + [name]) == Set(SetAll(m, headers, order), name, headers[name])
  {
    assert (order + [name])[..|order|] == order;
  }

  // ---------------------------------------------------------------------------------------------
  // The order does not matter

  /** Names that go to the same place ask for the same value. */
  ghost predicate Consistent(headers: map<string, string>) {
    forall n, o :: n in headers && o in headers && SlotOf(n) == SlotOf(o) ==> headers[n] == headers[o]
  }

  ghost predicate Configured(headers: map<string, string>, slot: Slot) {
    exists n :: n in headers && SlotOf(n) == slot
  }

  lemma SetReads(m: Message, name: string, value: string, slot: Slot)
    ensures Read(Set(m, name, value), slot) == if SlotOf(name) == slot then Some([value]) else Read(m, slot)
  {
  }

  /** What a place holds afterwards is the value of the last name that goes there. */
  lemma {:induction false} SetAllReads(m: Message, headers: map<string, string>, order: seq<string>, slot: Slot)
    requires forall name :: name in order ==> name in headers
    ensures (exists n :: n in order && SlotOf(n) == slot && Read(SetAll(m, headers, order), slot) == Some([headers[n]]))
            || ((forall n :: n in order ==> SlotOf(n) != slot)
                && Read(SetAll(m, headers, order), slot) == Read(m, slot))
  {
    if order != [] {
      var init, last := order[..|order| - 1], order[|order| - 1];
      assert last in order && forall n :: n in order <==> n in init || n == last;
      SetAllReads(m, headers, init, slot);
      SetReads(SetAll(m, headers, init), last, headers[last], slot);
    }
  }

  lemma SameReadsSameMessage(m: Message, m': Message)
    requires forall slot :: Read(m, slot) == Read(m', slot)
    ensures m == m'
  {
    assert Read(m, HostField) == Read(m', HostField);
    forall name ensures Get(m.header, name) == Get(m'.header, name) {
      assert Read(m, Header(name)) == Read(m', Header(name));
    }
    assert forall name :: name in m.header <==> Get(m.header, name).Some?;
    assert forall name :: name in m'.header <==> Get(m'.header, name).Some?;
    assert forall name :: name in m.header ==> m.header[name] == Get(m.header, name).value;
    assert forall name :: name in m'.header ==> m'.header[name] == Get(m'.header, name).value;
    assert m.header == m'.header;
  }

  /** Each configured place holds exactly the one configured value, and every other what it held. */
  lemma {:induction false} EachPlaceSet(m: Message, headers: map<string, string>, order: seq<string>, slot: Slot)
    requires IsOrder(headers, order) && Consistent(headers)
    ensures forall n :: n in headers && SlotOf(n) == slot ==> Read(SetAll(m, headers, order), slot) == Some([headers[n]])
    ensures !Configured(headers, slot) ==> Read(SetAll(m, headers, order), slot) == Read(m, slot)
  {
    SetAllReads(m, headers, order, slot);
  }

  lemma {:induction false} SameInEveryOrder(m: Message, headers: map<string, string>, o: seq<string>, o': seq<string>)
    requires IsOrder(headers, o) && IsOrder(headers, o') && Consistent(headers)
    ensures SetAll(m, headers, o) == SetAll(m, headers, o')
  {
    forall slot ensures Read(SetAll(m, headers, o), slot) == Read(SetAll(m, headers, o'), slot) {
      EachPlaceSet(m, headers, o, slot);
      EachPlaceSet(m, headers, o', slot);
      if Configured(headers, slot) {
        var n :| n in headers && SlotOf(n) == slot;
      }
    }
    SameReadsSameMessage(SetAll(m, headers, o), SetAll(m, headers, o'));
  }

  /** The result is the same for every iteration order exactly when no two names for the same place ask
      for different values. */
  lemma OrderIrrelevantIff(m: Message, headers: map<string, string>)
    ensures (forall o, o' :: IsOrder(headers, o) && IsOrder(headers, o') ==>
               SetAll(m, headers, o) == SetAll(m, headers, o'))
            <==> Consistent(headers)
  {
    if Consistent(headers) {
      forall o, o' | IsOrder(headers, o) && IsOrder(headers, o')
        ensures SetAll(m, headers, o) == SetAll(m, headers, o')
      {
        SameInEveryOrder(m, headers, o, o');
      }
    } else {
      var n, p :| n in headers && p in headers && SlotOf(n) == SlotOf(p) && headers[n] != headers[p];
      var o := OrderEndingWith(headers, n);
      var o' := OrderEndingWith(headers, p);
      SetReads(SetAll(m, headers, o[..|o| - 1]), n, headers[n], SlotOf(n));
      SetReads(SetAll(m, headers, o'[..|o'| - 1]), p, headers[p], SlotOf(n));
      assert Read(SetAll(m, headers, o), SlotOf(n)) == Some([headers[n]]);
      assert Read(SetAll(m, headers, o'), SlotOf(n)) == Some([headers[p]]);
      assert SetAll(m, headers, o) != SetAll(m, headers, o');
    }
  }

  /** Applying the headers again, in whatever order, changes nothing. */
  lemma {:induction false} Idempotent(m: Message, headers: map<string, string>, o: seq<string>, o': seq<string>)
    requires IsOrder(headers, o) && IsOrder(headers, o') && Consistent(headers)
    ensures SetAll(SetAll(m, headers, o), headers, o') == SetAll(m, headers, o)
  {
    var once := SetAll(m, headers, o);
    var twice := SetAll(once, headers, o');
    forall slot ensures Read(twice, slot) == Read(once, slot) {
      EachPlaceSet(m, headers, o, slot);
      EachPlaceSet(once, headers, o', slot);
      if Configured(headers, slot) {
        var n :| n in headers && SlotOf(n) == slot;
      }
    }
    SameReadsSameMessage(twice, once);
  }

  // ---------------------------------------------------------------------------------------------
  // Names that passed validation

  /** The canonical form has capitals at the start and after hyphens, and small letters elsewhere. */
  lemma {:induction false} CapitalizedAt(name: string, start: bool, i: nat)
    requires i < |name|
    ensures |Capitalized(name, start)| == |name|
    ensures Capitalized(name, start)[i]
            == if (if i == 0 then start else name[i - 1] == '-') then Upper(name[i]) else Lower(name[i])
  {
    if |name| > 1 {
      CapitalizedAt(name[1..], name[0] == '-', if i == 0 then 0 else i - 1);
    }
  }

  lemma {:induction false} CapitalizedLength(name: string, start: bool)
    ensures |Capitalized(name, start)| == |name|
  {
    if name != "" {
      CapitalizedAt(name, start, 0);
    }
  }

  lemma SpellsHost(c: string)
    ensures c == "Host" <==> |c| == 4 && c[0] == 'H' && c[1] == 'o' && c[2] == 's' && c[3] == 't'
  {
  }

  lemma Letters(x: char)
    ensures Upper(x) == 'H' <==> x in "hH"
    ensures Lower(x) == 'o' <==> x in "oO"
    ensures Lower(x) == 's' <==> x in "sS"
    ensures Lower(x) == 't' <==> x in "tT"
    ensures x in "hHoO" || x in "sStT" ==> x != '-'
  {
  }

  lemma TokenIsAscii(x: char)
    requires IsTokenRune(x)
    ensures x < '\U{0080}'
  {
  }

  lemma {:induction false} CapitalizedHost(name: string)
    requires |name| == 4 && name[2] != '\U{017F}'
    ensures Capitalized(name, true) == "Host" <==> IsHost(name)
  {
    var c := Capitalized(name, true);
    CapitalizedAt(name, true, 0);
    CapitalizedAt(name, true, 1);
    CapitalizedAt(name, true, 2);
    CapitalizedAt(name, true, 3);
    HostLetters(c, name);
  }

  lemma HostLetters(c: string, name: string)
    requires |name| == |c| == 4 && name[2] != '\U{017F}'
    requires c[0] == Upper(name[0])
    requires c[1] == if name[0] == '-' then Upper(name[1]) else Lower(name[1])
    requires c[2] == if name[1] == '-' then Upper(name[2]) else Lower(name[2])
    requires c[3] == if name[2] == '-' then Upper(name[3]) else Lower(name[3])
    ensures c == "Host" <==> IsHost(name)
  {
    SpellsHost(c);
    Letters(name[0]);
    Letters(name[1]);
    Letters(name[2]);
    Letters(name[3]);
  }

  /** For a valid name, being Host in any case is the same as being "Host" in canonical form: so a valid
      name goes to the Host field exactly when it would otherwise have been stored under "Host". */
  lemma HostIffCanonical(name: string)
    requires ValidHeaderName(name)
    ensures IsHost(name) <==> Canonical(name) == "Host"
  {
    CapitalizedLength(name, true);
    if |name| == 4 {
      TokenIsAscii(name[2]);
      CapitalizedHost(name);
    }
  }

  /** The characters of a token are the visible ones of ASCII that are not delimiters: section 5.6.2 of RFC
      9110. */
  lemma TokenIsVisibleButNoDelimiter(c: char)
    ensures IsTokenRune(c) <==> '!' <= c <= '~' && c !in "\"(),/:;<=>?@[\\]{}"
  {
  }

  predicate IsCapital(c: char) {
    'A' <= c <= 'Z'
  }

  predicate IsSmall(c: char) {
    'a' <= c <= 'z'
  }

  /** The same character, or the two forms of one letter. */
  predicate SameLetter(c: char, d: char) {
    || c == d
    || (IsCapital(c) && IsSmall(d) && c as int - 'A' as int == d as int - 'a' as int)
    || (IsSmall(c) && IsCapital(d) && c as int - 'a' as int == d as int - 'A' as int)
  }

  /** The canonical form of a valid name is the name, with capitals at the start and after each hyphen and
      small letters elsewhere. */
  lemma {:induction false} CanonicalForm(name: string, i: nat)
    requires ValidHeaderName(name) && i < |name|
    ensures |Canonical(name)| == |name| && SameLetter(Canonical(name)[i], name[i])
    ensures i == 0 || name[i - 1] == '-' ==> !IsSmall(Canonical(name)[i])
    ensures i > 0 && name[i - 1] != '-' ==> !IsCapital(Canonical(name)[i])
  {
    CapitalizedAt(name, true, i);
  }

  lemma OneForm(c: char, d: char, e: char)
    requires SameLetter(c, d)
    ensures Upper(c) == Upper(d) && Lower(c) == Lower(d) && (c == '-' <==> d == '-')
    ensures SameLetter(c, e) ==> SameLetter(d, e)
  {
  }

  /** Two valid names go to one place exactly if they differ in case only. */
  lemma {:induction false} SamePlaceIff(n: string, o: string)
    requires ValidHeaderName(n) && ValidHeaderName(o)
    ensures SlotOf(n) == SlotOf(o) <==> |n| == |o| && forall i :: 0 <= i < |n| ==> SameLetter(n[i], o[i])
  {
    HostIffCanonical(n);
    HostIffCanonical(o);
    CapitalizedLength(n, true);
    CapitalizedLength(o, true);
    if Canonical(n) == Canonical(o) {
      forall i | 0 <= i < |n| ensures SameLetter(n[i], o[i]) {
        CanonicalForm(n, i);
        CanonicalForm(o, i);
        OneForm(Canonical(n)[i], n[i], o[i]);
      }
    }
    if |n| == |o| && forall i :: 0 <= i < |n| ==> SameLetter(n[i], o[i]) {
      forall i | 0 <= i < |n| ensures Canonical(n)[i] == Canonical(o)[i] {
        CapitalizedAt(n, true, i);
        CapitalizedAt(o, true, i);
        OneForm(n[i], o[i], n[i]);
        if i > 0 {
          OneForm(n[i - 1], o[i - 1], n[i]);
        }
      }
      assert Canonical(n) == Canonical(o);
    }
  }

  /** Validated names that stay distinct when canonicalised never compete for a place. */
  lemma DistinctIsConsistent(headers: map<string, string>)
    requires forall n :: n in headers ==> Acceptable(n, headers[n])
    requires forall n, o :: n in headers && o in headers && Canonical(n) == Canonical(o) ==> n == o
    ensures Consistent(headers)
    ensures forall n :: n in headers ==> SlotOf(n) != Header("Host")
  {
    forall n | n in headers ensures IsHost(n) <==> Canonical(n) == "Host" {
      HostIffCanonical(n);
    }
  }
}
