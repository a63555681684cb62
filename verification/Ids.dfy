/** Sequential ids with reuse, and the global ids of sessions. */
module Ids {

  /** An id pool: ids 1..current have been issued, and the reusable ones were given back. */
  datatype IdPool = IdPool(current: nat, reusable: set<nat>) {

    /** Reused ids come first; which one is up to the caller's pick, as map iteration order is arbitrary. */
    ghost predicate CanPick(pick: nat) {
      if reusable == {} then pick == current + 1 else pick in reusable
    }

    function Take(pick: nat): IdPool {
      if pick in reusable then IdPool(current, reusable - {pick}) else IdPool(current + 1, reusable)
    }

    function Return(id: nat): IdPool {
      IdPool(current, reusable + {id})
    }

    /** The outstanding and the reusable ids partition 1..current. */
    ghost predicate Partitions(outstanding: set<nat>) {
      && outstanding !! reusable
      && forall id :: id in outstanding + reusable <==> 1 <= id <= current
    }
  }

  const NO_IDS := IdPool(0, {})

  /** A taken id was not outstanding, and is the only one added. */
  lemma TakeKeepsPartition(pool: IdPool, outstanding: set<nat>, pick: nat)
    requires pool.Partitions(outstanding) && pool.CanPick(pick)
    ensures pick !in outstanding && pick >= 1
    ensures pool.Take(pick).Partitions(outstanding + {pick})
  {
    assert pick in pool.reusable ==> pick in outstanding + pool.reusable;
    if pool.reusable == {} {
      assert pick !in outstanding + pool.reusable;
      forall id ensures id in (outstanding + {pick}) + pool.Take(pick).reusable <==> 1 <= id <= pool.Take(pick).current {
        assert id in outstanding + pool.reusable <==> 1 <= id <= pool.current;
      }
    } else {
      forall id ensures id in (outstanding + {pick}) + pool.Take(pick).reusable <==> 1 <= id <= pool.Take(pick).current {
        assert id in outstanding + pool.reusable <==> 1 <= id <= pool.current;
      }
    }
  }

  /** A new number is issued only when every number issued before is outstanding; otherwise any that was given back may come. */
  lemma PickIff(pool: IdPool, outstanding: set<nat>, pick: nat)
    requires pool.Partitions(outstanding)
    ensures pool.CanPick(pick) <==>
      (1 <= pick <= pool.current && pick !in outstanding)
      || (pick == pool.current + 1 && forall id :: 1 <= id <= pool.current ==> id in outstanding)
    ensures pool.CanPick(pick) ==> pool.Take(pick).current == if pick <= pool.current then pool.current else pool.current + 1
  {
    forall id ensures id in pool.reusable <==> 1 <= id <= pool.current && id !in outstanding {
      assert id in outstanding + pool.reusable <==> 1 <= id <= pool.current;
    }
    if pool.reusable != {} {
      var id :| id in pool.reusable;
      assert 1 <= id <= pool.current && id !in outstanding;
    }
  }

  lemma ReturnKeepsPartition(pool: IdPool, outstanding: set<nat>, id: nat)
    requires pool.Partitions(outstanding) && id in outstanding
    ensures pool.Return(id).Partitions(outstanding - {id})
  {
    assert id in outstanding + pool.reusable;
    forall i ensures i in (outstanding - {id}) + pool.Return(id).reusable <==> 1 <= i <= pool.current {
      assert i in outstanding + pool.reusable <==> 1 <= i <= pool.current;
    }
  }

  class SequentialIDGenerator {
    var currentID: nat
    var reusableIDs: set<nat>

    constructor ()
      ensures View() == NO_IDS
    {
      currentID, reusableIDs := 0, {};
    }

    function View(): IdPool
      reads this`currentID, this`reusableIDs
    {
      IdPool(currentID, reusableIDs)
    }

    method New() returns (id: nat)
      modifies this`currentID, this`reusableIDs
      ensures old(View()).CanPick(id) && View() == old(View()).Take(id)
    {
      if reusableIDs != {} {
        id :| id in reusableIDs;
        reusableIDs := reusableIDs - {id};
        return;
      }
      currentID := currentID + 1;
      id := currentID;
    }

    method Reuse(id: nat)
      modifies this`reusableIDs
      ensures View() == old(View()).Return(id)
    {
      reusableIDs := reusableIDs + {id};
    }
  }

  function HexDigit(d: nat): char
    requires d < 16
  {
    "0123456789abcdef"[d]
  }

  /** Lowercase hexadecimal without leading zeros. */
  function Hex(n: nat): (s: string)
    ensures s != []
  {
    if n < 16 then [HexDigit(n)] else Hex(n / 16) + [HexDigit(n % 16)]
  }

  function GlobalSessionID(serverID: string, id: nat): string {
    serverID + "x" + Hex(id)
  }

  /** The value of a hexadecimal digit; other characters have none. */
  function DigitValue(c: char): int {
    if '0' <= c <= '9' then c as int - '0' as int
    else if 'a' <= c <= 'f' then c as int - 'a' as int + 10
    else -1
  }

  /** What a string of digits says, read in base 16. */
  function Read(s: string): int {
    if s == "" then 0 else 16 * Read(s[..|s| - 1]) + DigitValue(s[|s| - 1])
  }

  /** The rendering of a number reads back as that number, has hexadecimal digits only, and no leading zero. */
  lemma {:induction false} HexReads(n: nat)
    ensures Read(Hex(n)) == n
    ensures forall i :: 0 <= i < |Hex(n)| ==> 0 <= DigitValue(Hex(n)[i]) < 16
    ensures n > 0 ==> Hex(n)[0] != '0'
    ensures n == 0 ==> Hex(n) == "0"
  {
    var s := Hex(n);
    DigitReads(n % 16);
    if n < 16 {
      assert s[..0] == "";
      DigitReads(n);
    } else {
      HexReads(n / 16);
      assert s[..|s| - 1] == Hex(n / 16) && s[|s| - 1] == HexDigit(n % 16);
    }
  }

  lemma DigitReads(d: nat)
    requires d < 16
    ensures DigitValue(HexDigit(d)) == d
  {
  }

  /** A global id is the server's id, an x, and the session's id in hexadecimal. */
  lemma GlobalIDReads(serverID: string, id: nat)
    ensures var s, k := GlobalSessionID(serverID, id), |serverID|;
      && k + 1 < |s| && s[..k] == serverID && s[k] == 'x' && Read(s[k + 1..]) == id && (id > 0 ==> s[k + 1] != '0')
  {
    HexReads(id);
    assert GlobalSessionID(serverID, id)[|serverID| + 1..] == Hex(id);
  }

  lemma HexInjective(a: nat, b: nat)
    requires Hex(a) == Hex(b)
    ensures a == b
  {
    HexReads(a);
    HexReads(b);
  }

  /** Two sessions of one server never share a global id unless they share the id. */
  lemma GlobalIDInjective(serverID: string, a: nat, b: nat)
    requires GlobalSessionID(serverID, a) == GlobalSessionID(serverID, b)
    ensures a == b
  {
    var n := |serverID + "x"|;
    assert GlobalSessionID(serverID, a)[n..] == Hex(a);
    assert GlobalSessionID(serverID, b)[n..] == Hex(b);
    HexInjective(a, b);
  }

  /** The request that names no session asks for a new one: no session answers to the empty id. */
  lemma GlobalIDNotEmpty(serverID: string, id: nat)
    ensures GlobalSessionID(serverID, id) != ""
  {
    assert |GlobalSessionID(serverID, id)| == |serverID| + 1 + |Hex(id)|;
  }
}
