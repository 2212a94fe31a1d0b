/** The routing table's keys and entries: a target address is the string
    `name + "." + callback`, and an entry remembers which registered addon and
    which of its callbacks the address invokes. */
module Routing {
  import opened Js

  /** Which registered addon (by registry name) and which callback an entry invokes. */
  datatype Route = Route(owner: string, callback: string)

  /** The target address of a callback: `${name}.${callback}`. */
  function RoutingKey(name: string, callback: string): (k: string)
    ensures |k| == |name| + 1 + |callback|
    ensures k[..|name|] == name && k[|name|] == '.' && k[|name| + 1..] == callback
  {
    name + "." + callback
  }

  /** The addresses an addon with this name and these callbacks owns. */
  function Keys(name: string, callbacks: seq<string>): set<string>
  {
    set cb | cb in callbacks :: RoutingKey(name, cb)
  }

  /** The entries the start listener installs, one per callback, in the order
      the callbacks are declared. */
  function Routes(owner: string, name: string, callbacks: seq<string>): map<string, Route>
  {
    if callbacks == [] then map[]
    else
      var last := callbacks[|callbacks| - 1];
      Routes(owner, name, callbacks[..|callbacks| - 1])[RoutingKey(name, last) := Route(owner, last)]
  }

  /** For a fixed addon name, distinct callbacks have distinct addresses. */
  lemma KeyInjectiveInCallback(name: string, c1: string, c2: string)
    requires RoutingKey(name, c1) == RoutingKey(name, c2)
    ensures c1 == c2
  {
  }

  /** Addresses are ambiguous once addon names contain a dot: callback "c" of addon
      "a.b" and callback "b.c" of addon "a" share the address "a.b.c". */
  lemma KeysCollide()
    ensures RoutingKey("a.b", "c") == RoutingKey("a", "b.c")
    ensures Route("a.b", "c") != Route("a", "b.c")
  {
  }

  /** With dot-free addon names an address determines both the name and the callback. */
  lemma KeyInjective(n1: string, c1: string, n2: string, c2: string)
    requires '.' !in n1 && '.' !in n2
    requires RoutingKey(n1, c1) == RoutingKey(n2, c2)
    ensures n1 == n2 && c1 == c2
  {
  }

  /** The installed entries are exactly the addon's addresses. */
  lemma {:induction false} RoutesKeys(owner: string, name: string, callbacks: seq<string>)
    ensures Routes(owner, name, callbacks).Keys == Keys(name, callbacks)
  {
    if callbacks != [] {
      var init := callbacks[..|callbacks| - 1];
      var last := callbacks[|callbacks| - 1];
      RoutesKeys(owner, name, init);
      assert callbacks == init + [last];
      assert Keys(name, callbacks) == Keys(name, init) + {RoutingKey(name, last)};
    }
  }

  /** Every declared callback is reachable at its address, and invokes that callback
      of that owner. */
  lemma {:induction false} RoutesInstallEach(owner: string, name: string, callbacks: seq<string>, cb: string)
    requires cb in callbacks
    ensures RoutingKey(name, cb) in Routes(owner, name, callbacks)
    ensures Routes(owner, name, callbacks)[RoutingKey(name, cb)] == Route(owner, cb)
  {
    var init := callbacks[..|callbacks| - 1];
    var last := callbacks[|callbacks| - 1];
    assert callbacks == init + [last];
    if cb != last {
      assert cb in init;
      RoutesInstallEach(owner, name, init, cb);
      if RoutingKey(name, cb) == RoutingKey(name, last) {
        KeyInjectiveInCallback(name, cb, last);
      }
    }
  }

  /** Every installed entry invokes a declared callback of `owner`, at that callback's address. */
  lemma {:induction false} RoutesSound(owner: string, name: string, callbacks: seq<string>, k: string)
    requires k in Routes(owner, name, callbacks)
    ensures Routes(owner, name, callbacks)[k].owner == owner
    ensures Routes(owner, name, callbacks)[k].callback in callbacks
    ensures k == RoutingKey(name, Routes(owner, name, callbacks)[k].callback)
  {
    var init := callbacks[..|callbacks| - 1];
    var last := callbacks[|callbacks| - 1];
    if k != RoutingKey(name, last) {
      RoutesSound(owner, name, init, k);
      assert Routes(owner, name, init)[k].callback in callbacks by {
        assert callbacks == init + [last];
      }
    }
  }

  /** An addon with distinct callbacks gets exactly one entry per callback. */
  lemma {:induction false} RoutesCount(owner: string, name: string, callbacks: seq<string>)
    requires Distinct(callbacks)
    ensures |Routes(owner, name, callbacks)| == |callbacks|
  {
    if callbacks != [] {
      var init := callbacks[..|callbacks| - 1];
      var last := callbacks[|callbacks| - 1];
      assert Distinct(init);
      RoutesCount(owner, name, init);
      if RoutingKey(name, last) in Routes(owner, name, init) {
        RoutesSound(owner, name, init, RoutingKey(name, last));
        var cb := Routes(owner, name, init)[RoutingKey(name, last)].callback;
        KeyInjectiveInCallback(name, cb, last);
        assert false;
      }
    }
  }

  /** Removing an addon's addresses after installing them restores a table
      that held none of them. */
  lemma {:induction false} StopUndoesStart(table: map<string, Route>, owner: string, name: string, callbacks: seq<string>)
    requires table.Keys !! Keys(name, callbacks)
    ensures (table + Routes(owner, name, callbacks)) - Keys(name, callbacks) == table
  {
    RoutesKeys(owner, name, callbacks);
  }

  /** `k` starts with `name` followed by a dot. */
  predicate UnderName(name: string, k: string)
  {
    |k| > |name| && k[..|name|] == name && k[|name|] == '.'
  }

  /** If the table held no address under `name.`, then after the start listener
      the addresses under `name.` are exactly the addon's, one per distinct callback. */
  lemma PrefixCount(table: map<string, Route>, owner: string, name: string, callbacks: seq<string>)
    requires Distinct(callbacks)
    requires forall k :: k in table ==> !UnderName(name, k)
    ensures forall k :: k in table + Routes(owner, name, callbacks) && UnderName(name, k) <==> k in Keys(name, callbacks)
    ensures |Keys(name, callbacks)| == |callbacks|
  {
    var routes := Routes(owner, name, callbacks);
    RoutesKeys(owner, name, callbacks);
    RoutesCount(owner, name, callbacks);
    forall k | k in Keys(name, callbacks) ensures UnderName(name, k) {
      var cb :| cb in callbacks && k == RoutingKey(name, cb);
    }
    assert |routes.Keys| == |routes|;
  }

  /** The collision in action: starting addon "a" with callback "b.c" takes over
      the address of callback "c" of addon "a.b", and stopping "a" removes it. */
  lemma CollisionOverwrites(table: map<string, Route>)
    requires table == map[RoutingKey("a.b", "c") := Route("a.b", "c")]
    ensures (table + Routes("a", "a", ["b.c"]))[RoutingKey("a.b", "c")] == Route("a", "b.c")
    ensures RoutingKey("a.b", "c") !in (table + Routes("a", "a", ["b.c"])) - Keys("a", ["b.c"])
  {
    KeysCollide();
    assert ["b.c"][..0] == [];
    assert Keys("a", ["b.c"]) == {RoutingKey("a", "b.c")};
  }

  /** A second start listener run installs nothing further: the table is the one a
      single run leaves, so the entries under `name.` are still exactly the addon's
      addresses, one per distinct callback. */
  lemma {:induction false} InstallIdempotent(table: map<string, Route>, owner: string, name: string, callbacks: seq<string>)
    requires Distinct(callbacks)
    requires forall k :: k in table ==> !UnderName(name, k)
    ensures var once := table + Routes(owner, name, callbacks);
      once + Routes(owner, name, callbacks) == once
    ensures var twice := (table + Routes(owner, name, callbacks)) + Routes(owner, name, callbacks);
      && (forall k :: k in twice && UnderName(name, k) <==> k in Keys(name, callbacks))
      && |Keys(name, callbacks)| == |callbacks|
  {
    var routes := Routes(owner, name, callbacks);
    assert (table + routes) + routes == table + routes;
    PrefixCount(table, owner, name, callbacks);
  }
}
