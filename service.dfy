/**
 * The access check and the call statistics of the gRPC microservice. A call names its
 * consumer in the "consumer" metadata entry; the ACL maps each consumer to the method
 * patterns it may call. Every call, admitted or not, is counted by method (and by consumer
 * when one is named) in every statistics subscriber's counters.
 */
module Service {
  import opened Wrappers

  /** codes.Unauthenticated. */
  const Unauthenticated: int := 16

  /** A gRPC status error: code and message. */
  datatype Status = Status(code: int, msg: string)

  const NoAclField := "There are not ACL field"
  const UnknownConsumer := "Unknown consumer"
  const Refused := "Unauthenticated"

  /**
   * checkAcl's verdict. Only the first consumer value is consulted; a call is admitted
   * exactly when one of that consumer's patterns matches the full method name.
   */
  function AclVerdict(acl: map<string, seq<string>>, consumer: seq<string>, fullMethod: string,
                      matches: (string, string) -> bool): (err: Option<Status>)
    ensures |consumer| == 0 ==> err == Some(Status(Unauthenticated, NoAclField))
    ensures |consumer| > 0 && consumer[0] !in acl ==> err == Some(Status(Unauthenticated, UnknownConsumer))
    ensures |consumer| > 0 && consumer[0] in acl ==>
              (err.None? <==> exists i :: 0 <= i < |acl[consumer[0]]| && matches(acl[consumer[0]][i], fullMethod))
    ensures err.Some? ==> err.value.code == Unauthenticated
    ensures |consumer| > 0 && consumer[0] in acl && err.Some? ==> err.value.msg == Refused
  {
    if |consumer| == 0 then Some(Status(Unauthenticated, NoAclField))
    else if consumer[0] !in acl then Some(Status(Unauthenticated, UnknownConsumer))
    else if exists i :: 0 <= i < |acl[consumer[0]]| && matches(acl[consumer[0]][i], fullMethod) then None
    else Some(Status(Unauthenticated, Refused))
  }

  /** Only the first consumer value matters: extra values never change the verdict. */
  lemma FirstConsumerDecides(acl: map<string, seq<string>>, consumer: seq<string>, extra: seq<string>,
                             fullMethod: string, matches: (string, string) -> bool)
    requires |consumer| > 0
    ensures AclVerdict(acl, consumer + extra, fullMethod, matches) == AclVerdict(acl, consumer[..1], fullMethod, matches)
  {
    assert (consumer + extra)[0] == consumer[..1][0];
  }

  // ----- counters -----

  /** Go's uint64. */
  newtype uint64 = x: int | 0 <= x < 0x1_0000_0000_0000_0000

  const Modulus: int := 0x1_0000_0000_0000_0000

  /** v + 1 on a uint64, wrapping to 0 past the largest value. */
  function Succ(v: uint64): (r: uint64)
    ensures r as int == (v as int + 1) % Modulus
  {
    if v as int == Modulus - 1 then 0 else v + 1
  }

  /** A counter map after counting `key` once more: 1 for a new key, one more for a known one. */
  function Bump(counts: map<string, uint64>, key: string): (r: map<string, uint64>)
    ensures r.Keys == counts.Keys + {key}
    ensures key !in counts ==> r[key] == 1
    ensures key in counts ==> r[key] as int == (counts[key] as int + 1) % Modulus
    ensures forall k :: k in counts && k != key ==> r[k] == counts[k]
  {
    counts[key := if key in counts then Succ(counts[key]) else 1]
  }

  /** The counters that counting `keys` in order produces from empty ones. */
  function Tally(keys: seq<string>): map<string, uint64>
  {
    if |keys| == 0 then map[] else Bump(Tally(keys[..|keys| - 1]), keys[|keys| - 1])
  }

  function Occurrences(keys: seq<string>, k: string): nat
  {
    if |keys| == 0 then 0
    else Occurrences(keys[..|keys| - 1], k) + (if keys[|keys| - 1] == k then 1 else 0)
  }

  /** Counters hold, for each key seen, how often it was seen, modulo 2^64. */
  lemma {:induction false} TallyCounts(keys: seq<string>, k: string)
    ensures k in Tally(keys) <==> k in keys
    ensures k in Tally(keys) ==> Tally(keys)[k] as int == Occurrences(keys, k) % Modulus
  {
    if |keys| > 0 {
      var init, last := keys[..|keys| - 1], keys[|keys| - 1];
      TallyCounts(init, k);
      assert keys == init + [last];
      assert Tally(keys) == Bump(Tally(init), last);
      if k != last {
        assert Occurrences(keys, k) == Occurrences(init, k);
      } else if k in Tally(init) {
        assert Occurrences(keys, k) == Occurrences(init, k) + 1;
        WrapSucc(Occurrences(init, k));
      } else {
        OccurrencesAbsent(init, k);
        assert Occurrences(keys, k) == 1;
      }
    }
  }

  lemma WrapSucc(a: nat)
    ensures (a % Modulus + 1) % Modulus == (a + 1) % Modulus
  {
    var q, r := a / Modulus, a % Modulus;
    assert a == q * Modulus + r;
    if r + 1 == Modulus {
      assert a + 1 == (q + 1) * Modulus;
    } else {
      assert a + 1 == q * Modulus + (r + 1);
    }
  }

  lemma {:induction false} OccurrencesAbsent(keys: seq<string>, k: string)
    requires k !in keys
    ensures Occurrences(keys, k) == 0
  {
    if |keys| > 0 {
      assert keys[..|keys| - 1] + [keys[|keys| - 1]] == keys;
      OccurrencesAbsent(keys[..|keys| - 1], k);
    }
  }

  /** One subscriber's statistics: calls per method and per consumer since the last reset. */
  datatype Stat = Stat(byMethod: map<string, uint64>, byConsumer: map<string, uint64>)

  /** NewStat. */
  function NewStat(): (s: Stat)
    ensures s.byMethod == map[] && s.byConsumer == map[]
  {
    Stat(map[], map[])
  }

  /** A statistics subscriber. */
  class StatAgent {
    var stat: Stat

    /** NewStatAgent: a subscriber with empty counters. */
    constructor()
      ensures stat == NewStat()
    {
      stat := NewStat();
    }

    /** ResetStat: both counter maps become empty. */
    method ResetStat()
      modifies this
      ensures stat == NewStat()
    {
      stat := NewStat();
    }

    /** IncByMethod: count one call of `fullMethod`; the consumer counters do not change. */
    method IncByMethod(fullMethod: string)
      modifies this
      ensures stat == old(stat).(byMethod := Bump(old(stat).byMethod, fullMethod))
    {
      if fullMethod !in stat.byMethod {
        stat := stat.(byMethod := stat.byMethod[fullMethod := 1]);
      } else {
        var v := stat.byMethod[fullMethod];
        stat := stat.(byMethod := stat.byMethod[fullMethod := Succ(v)]);
      }
    }

    /** IncByConsumer: count one call by `consumer`; the method counters do not change. */
    method IncByConsumer(consumer: string)
      modifies this
      ensures stat == old(stat).(byConsumer := Bump(old(stat).byConsumer, consumer))
    {
      if consumer !in stat.byConsumer {
        stat := stat.(byConsumer := stat.byConsumer[consumer := 1]);
      } else {
        var v := stat.byConsumer[consumer];
        stat := stat.(byConsumer := stat.byConsumer[consumer := Succ(v)]);
      }
    }
  }

  /** The list of statistics subscribers. */
  class StatAgents {
    var list: seq<StatAgent>

    /** Each subscriber is listed once, so a broadcast counts a call once per subscriber. */
    ghost predicate Valid()
      reads this
    {
      forall i, j :: 0 <= i < j < |list| ==> list[i] != list[j]
    }

    /** NewStatAgents. */
    constructor()
      ensures Valid() && list == []
    {
      list := [];
    }

    /** AllocateNew: one new subscriber with empty counters, appended; the others are untouched. */
    method AllocateNew() returns (sa: StatAgent)
      requires Valid()
      modifies this
      ensures Valid()
      ensures fresh(sa) && sa.stat == NewStat()
      ensures list == old(list) + [sa]
      ensures forall a :: a in old(list) ==> a.stat == old(a.stat)
    {
      sa := new StatAgent();
      list := list + [sa];
    }

    /** BroadcastIncByMethod: every subscriber counts the call once. */
    method BroadcastIncByMethod(fullMethod: string)
      requires Valid()
      modifies list
      ensures forall i :: 0 <= i < |list| ==>
                list[i].stat == old(list[i].stat).(byMethod := Bump(old(list[i].stat).byMethod, fullMethod))
    {
      for i := 0 to |list|
        invariant forall j :: 0 <= j < i ==>
                    list[j].stat == old(list[j].stat).(byMethod := Bump(old(list[j].stat).byMethod, fullMethod))
        invariant forall j :: i <= j < |list| ==> list[j].stat == old(list[j].stat)
      {
        list[i].IncByMethod(fullMethod);
      }
    }

    /** BroadcastIncByConsumer: every subscriber counts the consumer once. */
    method BroadcastIncByConsumer(consumer: string)
      requires Valid()
      modifies list
      ensures forall i :: 0 <= i < |list| ==>
                list[i].stat == old(list[i].stat).(byConsumer := Bump(old(list[i].stat).byConsumer, consumer))
    {
      for i := 0 to |list|
        invariant forall j :: 0 <= j < i ==>
                    list[j].stat == old(list[j].stat).(byConsumer := Bump(old(list[j].stat).byConsumer, consumer))
        invariant forall j :: i <= j < |list| ==> list[j].stat == old(list[j].stat)
      {
        list[i].IncByConsumer(consumer);
      }
    }
  }

  /** The service: the ACL read from its configuration, and the statistics subscribers. */
  class Microservice {
    var acl: map<string, seq<string>>
    var statAgents: StatAgents

    /** The service after its ACL text has been parsed into `acl`. */
    constructor(acl: map<string, seq<string>>)
      ensures this.acl == acl && fresh(statAgents) && statAgents.Valid() && statAgents.list == []
    {
      this.acl := acl;
      statAgents := new StatAgents();
    }

    /** checkAcl: the patterns are tried in order and the scan stops at the first match. */
    method CheckAcl(consumer: seq<string>, fullMethod: string, matches: (string, string) -> bool) returns (err: Option<Status>)
      ensures err == AclVerdict(acl, consumer, fullMethod, matches)
    {
      if |consumer| == 0 {
        return Some(Status(Unauthenticated, NoAclField));
      }
      if consumer[0] !in acl {
        return Some(Status(Unauthenticated, UnknownConsumer));
      }
      var rules := acl[consumer[0]];
      var allow := false;
      for i := 0 to |rules|
        invariant !allow
        invariant forall j :: 0 <= j < i ==> !matches(rules[j], fullMethod)
      {
        if matches(rules[i], fullMethod) {
          allow := true;
          break;
        }
      }
      if !allow {
        return Some(Status(Unauthenticated, Refused));
      }
      return None;
    }

    /**
     * The statistics part of the unary and stream interceptors: the ACL verdict, then the
     * call counted by method, and by its first consumer when one is named, in every
     * subscriber, whether or not the call is admitted.
     */
    method Admit(consumer: seq<string>, fullMethod: string, matches: (string, string) -> bool) returns (err: Option<Status>)
      requires statAgents.Valid()
      modifies statAgents.list
      ensures err == AclVerdict(acl, consumer, fullMethod, matches)
      ensures forall i :: 0 <= i < |statAgents.list| ==>
                statAgents.list[i].stat.byMethod == Bump(old(statAgents.list[i].stat).byMethod, fullMethod)
      ensures forall i :: 0 <= i < |statAgents.list| ==>
                statAgents.list[i].stat.byConsumer ==
                  (if |consumer| > 0 then Bump(old(statAgents.list[i].stat).byConsumer, consumer[0])
                   else old(statAgents.list[i].stat).byConsumer)
    {
      err := CheckAcl(consumer, fullMethod, matches);
      statAgents.BroadcastIncByMethod(fullMethod);
      if |consumer| > 0 {
        statAgents.BroadcastIncByConsumer(consumer[0]);
      }
    }
  }
}
