/** Configured headers that pass validation and still compete for one place: tunnel/customheaders.go. */
module CompetingHeaders {

  import opened Base
  import opened CustomHeaders

  const TWICE: map<string, string> := map["x-a" := "1", "X-A" := "2"]

  lemma SameCanonicalForm()
    ensures ValidHeaderName("x-a") && ValidHeaderName("X-A")
    ensures !IsHost("x-a") && !IsHost("X-A") && Canonical("x-a") == Canonical("X-A")
  {
    var n, o := "x-a", "X-A";
    assert n[1..] == "-a" && o[1..] == "-A" && "-a"[1..] == "a" && "-A"[1..] == "A" && "a"[1..] == "" && "A"[1..] == "";
    assert Capitalized("a", true) == ['A'] && Capitalized("A", true) == ['A'];
    assert Capitalized("-a", false) == ['-'] + ['A'] && Capitalized("-A", false) == ['-'] + ['A'];
  }

  lemma TwiceCompetes()
    ensures forall name :: name in TWICE ==> Acceptable(name, TWICE[name])
    ensures !Consistent(TWICE)
  {
    SameCanonicalForm();
    var headers := TWICE;
    assert headers["x-a"] == "1" && headers["X-A"] == "2";
    assert SlotOf("x-a") == SlotOf("X-A") && "x-a" in headers && "X-A" in headers && "1"[0] != "2"[0];
  }

  /** A map that passes validation and gives different requests in different orders. */
  lemma OrderCanMatter(m: Message) returns (o: seq<string>, o': seq<string>)
    ensures forall name :: name in TWICE ==> Acceptable(name, TWICE[name])
    ensures IsOrder(TWICE, o) && IsOrder(TWICE, o') && SetAll(m, TWICE, o) != SetAll(m, TWICE, o')
  {
    SameCanonicalForm();
    TwiceCompetes();
    OrderIrrelevantIff(m, TWICE);
    o, o' :| IsOrder(TWICE, o) && IsOrder(TWICE, o') && SetAll(m, TWICE, o) != SetAll(m, TWICE, o');
  }
}
