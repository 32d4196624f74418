/** Who owns a route's HAProxy timeout: the operator or a human.

    The operator flags the timeout it set with an annotation of its own. From the two
    annotations alone it has to tell, on every later call, whether the value is still its own.
 */
module Routes {
  import opened Names

  type Annotations = map<string, string>

  const HaProxy: string := "haproxy.router.openshift.io/timeout"
  const Flag: string := "api.heat.openstack.org/timeout"

  function Digits(n: nat): string {
    if n < 10 then [('0' as int + n) as char] else Digits(n / 10) + [('0' as int + n % 10) as char]
  }

  /** `fmt.Sprintf("%ds", timeout)` */
  function Seconds(timeout: int): string {
    (if timeout < 0 then "-" + Digits(-timeout) else Digits(timeout)) + "s"
  }

  // ---------------------------------------------------------------- what such a value means

  predicate IsDigit(c: char) {
    '0' <= c <= '9'
  }

  /** A decimal number as it is usually written: no sign, no leading zero. */
  predicate IsNumeral(s: string) {
    s != "" && (forall c | c in s :: IsDigit(c)) && (s[0] == '0' ==> |s| == 1)
  }

  function ValueOf(s: string): int {
    if s == "" then 0 else 10 * ValueOf(s[..|s| - 1]) + (s[|s| - 1] as int - '0' as int)
  }

  /** The number of seconds that a duration like 600s stands for; nothing else is read as one. */
  function ParseSeconds(s: string): Option<int> {
    if s == "" || s[|s| - 1] != 's' then None
    else
      var n := s[..|s| - 1];
      if IsNumeral(n) then Some(ValueOf(n))
      else if n != "" && n[0] == '-' && IsNumeral(n[1..]) && n != "-0" then Some(-ValueOf(n[1..]))
      else None
  }

  lemma {:induction false} DigitsMean(n: nat)
    ensures IsNumeral(Digits(n)) && ValueOf(Digits(n)) == n
    ensures Digits(n)[0] == '0' ==> n == 0
  {
    if n < 10 {
      var d := ('0' as int + n) as char;
      assert Digits(n) == [d] && IsDigit(d);
      assert [d][..0] == [];
    } else {
      DigitsMean(n / 10);
      var most, d := Digits(n / 10), ('0' as int + n % 10) as char;
      assert IsDigit(d) && (most + [d])[..|most|] == most;
    }
  }

  lemma LastDigit(v: nat, d: nat)
    requires d < 10
    ensures (10 * v + d) / 10 == v && (10 * v + d) % 10 == d
  {
  }

  /** One more digit behind a number. */
  lemma DigitsSnoc(v: nat, d: nat)
    requires v > 0 && d < 10
    ensures Digits(10 * v + d) == Digits(v) + [('0' as int + d) as char]
  {
    LastDigit(v, d);
  }

  lemma OneDigit(s: string)
    requires IsNumeral(s) && |s| == 1
    ensures ValueOf(s) >= 0 && s == Digits(ValueOf(s)) && (s[0] != '0' ==> ValueOf(s) > 0)
  {
    assert s[0] in s && IsDigit(s[0]) && s[..0] == "";
    assert ValueOf(s) == s[0] as int - '0' as int;
    assert Digits(s[0] as int - '0' as int) == [s[0]];
  }

  lemma WithoutLast(s: string)
    requires IsNumeral(s) && |s| > 1
    ensures var most, c := s[..|s| - 1], s[|s| - 1];
            && IsNumeral(most) && most[0] == s[0] && most[0] != '0' && IsDigit(c)
            && s == most + [c] && ValueOf(s) == 10 * ValueOf(most) + (c as int - '0' as int)
  {
    var most := s[..|s| - 1];
    forall c | c in most ensures IsDigit(c) {
      assert c in s;
    }
    assert s[|s| - 1] in s;
  }

  /** A number has one numeral. */
  lemma {:induction false} NumeralIsDigits(s: string)
    requires IsNumeral(s)
    ensures ValueOf(s) >= 0 && s == Digits(ValueOf(s)) && (s[0] != '0' ==> ValueOf(s) > 0)
    decreases |s|
  {
    if |s| == 1 {
      OneDigit(s);
    } else {
      WithoutLast(s);
      NumeralIsDigits(s[..|s| - 1]);
      DigitsSnoc(ValueOf(s[..|s| - 1]), s[|s| - 1] as int - '0' as int);
      hide Digits, ValueOf;
    }
  }

  /** What is written for a timeout reads back as that timeout. */
  lemma SecondsParse(timeout: int)
    ensures ParseSeconds(Seconds(timeout)) == Some(timeout)
  {
    var t := Seconds(timeout);
    DigitsMean(if timeout < 0 then -timeout else timeout);
    hide Digits, ValueOf;
    if timeout < 0 {
      var digits := Digits(-timeout);
      var n := t[..|t| - 1];
      assert n == "-" + digits && n[1..] == digits && n[0] == '-' && !IsDigit('-');
      assert n != "-0" by {
        assert n[1] == digits[0] != '0';
      }
    } else {
      assert t[..|t| - 1] == Digits(timeout);
    }
  }

  lemma OnlyZeroBeginsWithZero(s: string)
    requires IsNumeral(s)
    ensures s[0] == '0' <==> s == "0"
  {
  }

  /** And nothing else does. */
  lemma ParsedIsSeconds(s: string, timeout: int)
    requires ParseSeconds(s) == Some(timeout)
    ensures s == Seconds(timeout)
  {
    var n := s[..|s| - 1];
    assert s == n + "s";
    if IsNumeral(n) {
      NumeralIsDigits(n);
    } else {
      NumeralIsDigits(n[1..]);
      assert n == "-" + n[1..];
      OnlyZeroBeginsWithZero(n[1..]);
    }
    hide Digits, ValueOf;
  }

  /** A value stands for a timeout if and only if it is the one the operator writes for it. */
  lemma {:induction false} SecondsIff(s: string, timeout: int)
    ensures ParseSeconds(s) == Some(timeout) <==> s == Seconds(timeout)
  {
    SecondsParse(timeout);
    if ParseSeconds(s) == Some(timeout) {
      ParsedIsSeconds(s, timeout);
    }
  }

  // ---------------------------------------------------------------- ownership

  function Get(m: Annotations, key: string): Option<string> {
    if key in m then Some(m[key]) else None
  }

  /** A human set the timeout, with the flag gone or with the flag still saying something else. */
  predicate HumanOwned(m: Annotations) {
    HaProxy in m && Get(m, Flag) != Some(m[HaProxy])
  }

  /** What a call comes to: a human's value is kept and loses the flag, any other is taken over. */
  function Defaulted(m: Annotations, timeout: int): Annotations {
    if HumanOwned(m) then m - {Flag} else m[Flag := Seconds(timeout)][HaProxy := Seconds(timeout)]
  }

  lemma KeysDiffer()
    ensures HaProxy != Flag
  {
    assert HaProxy[0] == 'h' && Flag[0] == 'a';
  }

  class Route {
    var annotations: Annotations

    method SetDefaultRouteAnnotations(timeout: int)
      modifies this
      ensures annotations == Defaulted(old(annotations), timeout)
      ensures forall key | key !in {Flag, HaProxy} :: Get(annotations, key) == Get(old(annotations), key)
      // a human's value stays, and the flag goes
      ensures "haproxy.router.openshift.io/timeout" in old(annotations)
              && ("api.heat.openstack.org/timeout" in old(annotations) ==>
                    old(annotations)["api.heat.openstack.org/timeout"]
                    != old(annotations)["haproxy.router.openshift.io/timeout"]) ==>
                && "haproxy.router.openshift.io/timeout" in annotations
                && annotations["haproxy.router.openshift.io/timeout"]
                   == old(annotations)["haproxy.router.openshift.io/timeout"]
                && "api.heat.openstack.org/timeout" !in annotations
      // any other is replaced by the timeout in seconds, under both keys
      ensures "haproxy.router.openshift.io/timeout" !in old(annotations)
              || ("api.heat.openstack.org/timeout" in old(annotations)
                  && old(annotations)["api.heat.openstack.org/timeout"]
                     == old(annotations)["haproxy.router.openshift.io/timeout"]) ==>
                && "haproxy.router.openshift.io/timeout" in annotations
                && "api.heat.openstack.org/timeout" in annotations
                && ParseSeconds(annotations["haproxy.router.openshift.io/timeout"]) == Some(timeout)
                && annotations["api.heat.openstack.org/timeout"]
                   == annotations["haproxy.router.openshift.io/timeout"]
    {
      KeysDiffer();
      SecondsParse(timeout);
      var flagged, proxied := Flag in annotations, HaProxy in annotations;
      if !flagged && proxied {
        assert annotations - {Flag} == annotations;
        return;
      }
      if flagged && proxied && annotations[Flag] != annotations[HaProxy] {
        annotations := annotations - {Flag};
        return;
      }
      var value := Seconds(timeout);
      annotations := annotations[Flag := value];
      annotations := annotations[HaProxy := value];
    }
  }

  /** The flag is left behind only beside an equal timeout, so a later difference is a human's. */
  lemma FlagMeansEqual(m: Annotations, timeout: int)
    ensures var m' := Defaulted(m, timeout);
            && HaProxy in m' && (Flag in m' ==> m'[Flag] == m'[HaProxy])
            && (Flag in m' <==> !HumanOwned(m))
  {
    KeysDiffer();
  }

  /** Of several calls in a row only the last one counts; with equal timeouts, a call is idempotent. */
  lemma LastCallWins(m: Annotations, first: int, last: int)
    ensures Defaulted(Defaulted(m, first), last) == Defaulted(m, last)
  {
    KeysDiffer();
    if HumanOwned(m) {
      assert m - {Flag} - {Flag} == m - {Flag};
    } else {
      assert Defaulted(m, first)[Flag := Seconds(last)][HaProxy := Seconds(last)] == Defaulted(m, last);
    }
  }

  /** Ownership is exactly what protects a value: it survives every possible call if and only if
      a human owns it. */
  lemma SurvivesIffHumanOwned(m: Annotations)
    requires HaProxy in m
    ensures (forall timeout :: Get(Defaulted(m, timeout), HaProxy) == Get(m, HaProxy)) <==> HumanOwned(m)
  {
    KeysDiffer();
    if !HumanOwned(m) {
      assert Seconds(0)[0] == '0' && Seconds(1)[0] == '1';
      assert Get(Defaulted(m, 0), HaProxy) != Get(Defaulted(m, 1), HaProxy);
    }
  }

  // ---------------------------------------------------------------- over runs

  datatype Event = Call(timeout: int) | HumanEdit(edited: Annotations)

  function After(m: Annotations, e: Event): Annotations {
    match e
    case Call(timeout) => Defaulted(m, timeout)
    case HumanEdit(edited) => edited
  }

  function AfterAll(m: Annotations, events: seq<Event>): Annotations
    decreases |events|
  {
    if events == [] then m else AfterAll(After(m, events[0]), events[1..])
  }

  /** In any interleaving, once a human owns the timeout no number of calls, with whatever
      timeouts, changes it until a human edits the annotations again. */
  lemma {:induction false} HumansKeepTheirTimeout(m: Annotations, before: seq<Event>, calls: seq<Event>)
    requires HumanOwned(AfterAll(m, before)) && forall i | 0 <= i < |calls| :: calls[i].Call?
    ensures var at, now := AfterAll(m, before), AfterAll(m, before + calls);
            HumanOwned(now) && now[HaProxy] == at[HaProxy]
    decreases |before|, |calls|
  {
    if before != [] {
      assert (before + calls)[1..] == before[1..] + calls;
      HumansKeepTheirTimeout(After(m, before[0]), before[1..], calls);
    } else {
      assert before + calls == calls;
      if calls != [] {
        FlagMeansEqual(m, calls[0].timeout);
        var m' := After(m, calls[0]);
        assert [] + calls[1..] == calls[1..];
        HumansKeepTheirTimeout(m', [], calls[1..]);
      }
    }
  }

  /** And whatever happened before, what is not the human's becomes the last call's timeout in seconds. */
  lemma {:induction false} CallsFollowTheLast(m: Annotations, events: seq<Event>, timeout: int)
    requires !HumanOwned(AfterAll(m, events))
    ensures var value := Get(AfterAll(m, events + [Call(timeout)]), HaProxy);
            value.Some? && ParseSeconds(value.value) == Some(timeout)
    decreases |events|
  {
    if events == [] {
      assert events + [Call(timeout)] == [Call(timeout)];
      assert AfterAll(m, [Call(timeout)]) == AfterAll(Defaulted(m, timeout), []);
      SecondsParse(timeout);
    } else {
      assert (events + [Call(timeout)])[1..] == events[1..] + [Call(timeout)];
      CallsFollowTheLast(After(m, events[0]), events[1..], timeout);
    }
  }
}
