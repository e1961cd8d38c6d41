/**
 * The client's notification-handler registry, a QMultiMap from namespace to
 * handler object.  It is modelled as the list of (namespace, handler) entries
 * in the order they were inserted; the QMultiMap queries are functions of
 * that list.  Namespaces are compared as QString compares them, code unit by
 * code unit.
 */
module NotificationRegistry {
  import opened Common

  /** A handler object: the client itself (registered for "JSONRPC") or another subscriber. */
  datatype Handler = ClientItself | Subscriber(id: nat)

  type Entry = (string, Handler)

  /** QString `a < b`: lexicographic, a proper prefix before its extensions. */
  predicate StrLess(a: string, b: string)
  {
    if |a| == 0 then |b| > 0
    else if |b| == 0 then false
    else if a[0] != b[0] then a[0] < b[0]
    else StrLess(a[1..], b[1..])
  }

  lemma {:induction false} StrLessTransitive(a: string, b: string, c: string)
    requires StrLess(a, b) && StrLess(b, c)
    ensures StrLess(a, c)
  {
    if |a| > 0 && |b| > 0 && |c| > 0 && a[0] == b[0] && b[0] == c[0] {
      StrLessTransitive(a[1..], b[1..], c[1..]);
    }
  }

  predicate Registered(entries: seq<Entry>, h: Handler)
  {
    exists i :: 0 <= i < |entries| && entries[i].1 == h
  }

  /** The smallest namespace `h` is registered for, if any. */
  function SmallestKey(entries: seq<Entry>, h: Handler): (r: Option<string>)
    ensures r.Some? <==> Registered(entries, h)
    ensures r.Some? ==> (r.value, h) in entries
    ensures r.Some? ==> forall i :: 0 <= i < |entries| && entries[i].1 == h ==> !StrLess(entries[i].0, r.value)
  {
    if entries == [] then None
    else
      var rest := SmallestKey(entries[1..], h);
      assert forall i :: 1 <= i < |entries| ==> entries[i] == entries[1..][i - 1];
      if entries[0].1 != h then
        assert Registered(entries[1..], h) ==> Registered(entries, h);
        rest
      else if rest.None? then
        StrLessIrreflexive(entries[0].0);
        assert forall i :: 1 <= i < |entries| ==> entries[i].1 != h;
        Some(entries[0].0)
      else if StrLess(entries[0].0, rest.value) then
        assert forall i :: 0 <= i < |entries| && entries[i].1 == h ==> !StrLess(entries[i].0, entries[0].0) by {
          forall i | 0 <= i < |entries| && entries[i].1 == h
            ensures !StrLess(entries[i].0, entries[0].0)
          {
            if i == 0 {
              StrLessIrreflexive(entries[0].0);
            } else if StrLess(entries[i].0, entries[0].0) {
              assert entries[i] == entries[1..][i - 1];
              StrLessTransitive(entries[i].0, entries[0].0, rest.value);
            }
          }
        }
        Some(entries[0].0)
      else rest
  }

  lemma {:induction false} StrLessIrreflexive(a: string)
    ensures !StrLess(a, a)
  {
    if |a| > 0 { StrLessIrreflexive(a[1..]); }
  }

  /** `QMultiMap::key(handler)`: the smallest namespace of `h`, or the empty string. */
  function KeyOf(entries: seq<Entry>, h: Handler): (k: string)
    ensures Registered(entries, h) ==> (k, h) in entries
    ensures Registered(entries, h) ==> forall i :: 0 <= i < |entries| && entries[i].1 == h ==> !StrLess(entries[i].0, k)
    ensures !Registered(entries, h) ==> k == ""
  {
    match SmallestKey(entries, h)
    case Some(k) => k
    case None => ""
  }

  /** `registerNotificationHandler` as written: skip only when `ns` is the smallest namespace of `h`. */
  function RegisterAsWritten(entries: seq<Entry>, ns: string, h: Handler): (r: seq<Entry>)
    ensures r == entries || r == entries + [(ns, h)]
    ensures r == entries <==> KeyOf(entries, h) == ns
  {
    if KeyOf(entries, h) == ns then entries else entries + [(ns, h)]
  }

  /** Registration as intended: a (namespace, handler) pair is recorded at most once. */
  function Register(entries: seq<Entry>, ns: string, h: Handler): (r: seq<Entry>)
    ensures (ns, h) in r
    ensures (ns, h) in entries ==> r == entries
    ensures (ns, h) !in entries ==> r == entries + [(ns, h)]
  {
    if (ns, h) in entries then entries else entries + [(ns, h)]
  }

  /** `unregisterNotificationHandler`: every entry of `h` removed, the others kept in order. */
  function Unregister(entries: seq<Entry>, h: Handler): (r: seq<Entry>)
    ensures forall e :: e in r <==> e in entries && e.1 != h
    ensures |r| <= |entries|
  {
    if entries == [] then []
    else (if entries[0].1 == h then [] else [entries[0]]) + Unregister(entries[1..], h)
  }

  /** `QMultiMap::values(ns)`: the handlers of `ns`, the most recently registered first. */
  function HandlersFor(entries: seq<Entry>, ns: string): (hs: seq<Handler>)
    ensures forall g :: g in hs <==> (ns, g) in entries
  {
    if entries == [] then []
    else
      var last := entries[|entries| - 1];
      var init := entries[..|entries| - 1];
      assert entries == init + [last];
      (if last.0 == ns then [last.1] else []) + HandlersFor(init, ns)
  }

  /** A namespace list in QMultiMap key order: ascending, equal keys side by side. */
  predicate Ascending(ns: seq<string>)
  {
    forall i, j :: 0 <= i < j < |ns| ==> !StrLess(ns[j], ns[i])
  }

  /** The namespaces of the entries, counted once per entry. */
  function KeyBag(entries: seq<Entry>): multiset<string>
  {
    if entries == [] then multiset{} else multiset{entries[0].0} + KeyBag(entries[1..])
  }

  /** `k` placed before the first key that is not below it. */
  function InsertKey(ns: seq<string>, k: string): (r: seq<string>)
    ensures |r| == |ns| + 1
    ensures multiset(r) == multiset(ns) + multiset{k}
  {
    if ns == [] || !StrLess(ns[0], k) then [k] + ns
    else
      assert ns == [ns[0]] + ns[1..];
      [ns[0]] + InsertKey(ns[1..], k)
  }

  /** `QMultiMap::keys()`: one namespace per entry, in ascending order. */
  function Namespaces(entries: seq<Entry>): (ns: seq<string>)
    ensures |ns| == |entries|
    ensures multiset(ns) == KeyBag(entries)
  {
    if entries == [] then [] else InsertKey(Namespaces(entries[1..]), entries[0].0)
  }

  /** Not-below is transitive: `a <= b <= c` gives `a <= c`. */
  lemma NotBelowTransitive(a: string, b: string, c: string)
    requires !StrLess(b, a) && !StrLess(c, b)
    ensures !StrLess(c, a)
  {
    if StrLess(c, a) {
      if StrLess(a, b) { StrLessTransitive(c, a, b); } else { StrLessTotal(a, b); }
    }
  }

  /** Inserting a key keeps a list in key order. */
  lemma {:induction false} InsertKeyAscending(ns: seq<string>, k: string)
    requires Ascending(ns)
    ensures Ascending(InsertKey(ns, k))
    decreases |ns|
  {
    var r := InsertKey(ns, k);
    if ns != [] && StrLess(ns[0], k) {
      var t := InsertKey(ns[1..], k);
      InsertKeyAscending(ns[1..], k);
      assert r == [ns[0]] + t;
      forall i, j | 0 <= i < j < |r|
        ensures !StrLess(r[j], r[i])
      {
        if i == 0 {
          assert r[j] == t[j - 1] && t[j - 1] in multiset(t);
          if t[j - 1] == k {
            if StrLess(k, ns[0]) {
              StrLessTransitive(k, ns[0], k);
              StrLessIrreflexive(k);
            }
          } else {
            assert t[j - 1] in multiset(ns[1..]);
            var m :| 0 <= m < |ns| - 1 && ns[1..][m] == t[j - 1];
            assert ns[m + 1] == t[j - 1];
          }
        } else {
          assert r[i] == t[i - 1] && r[j] == t[j - 1];
        }
      }
    } else {
      assert r == [k] + ns;
      forall i, j | 0 <= i < j < |r|
        ensures !StrLess(r[j], r[i])
      {
        if i == 0 {
          if j > 1 { NotBelowTransitive(k, ns[0], ns[j - 1]); }
        } else {
          assert r[i] == ns[i - 1] && r[j] == ns[j - 1];
        }
      }
    }
  }

  /** The key list is in ascending order. */
  lemma {:induction false} NamespacesAscending(entries: seq<Entry>)
    ensures Ascending(Namespaces(entries))
  {
    if entries != [] {
      NamespacesAscending(entries[1..]);
      InsertKeyAscending(Namespaces(entries[1..]), entries[0].0);
    }
  }

  /** A namespace is listed exactly when some entry has it. */
  lemma {:induction false} NamespacesListsKeys(entries: seq<Entry>, k: string)
    ensures k in Namespaces(entries) <==> exists e :: e in entries && e.0 == k
  {
    assert k in Namespaces(entries) <==> k in KeyBag(entries);
    if entries != [] {
      NamespacesListsKeys(entries[1..], k);
      assert forall e :: e in entries <==> e == entries[0] || e in entries[1..];
    }
  }

  predicate NoDuplicates(entries: seq<Entry>)
  {
    forall i, j :: 0 <= i < j < |entries| ==> entries[i] != entries[j]
  }

  function Occurrences(hs: seq<Handler>, h: Handler): nat
  {
    if hs == [] then 0 else (if hs[0] == h then 1 else 0) + Occurrences(hs[1..], h)
  }

  /**
   * As written, registering a handler again for a namespace it already holds
   * adds a second entry when the handler also holds a smaller namespace, and
   * a notification of that namespace then reaches the handler twice.
   */
  lemma RegisterAsWrittenDuplicates()
    ensures var entries := [("Energy", Subscriber(1)), ("Users", Subscriber(1))];
      var after := RegisterAsWritten(entries, "Users", Subscriber(1));
      |after| == 3 && HandlersFor(after, "Users") == [Subscriber(1), Subscriber(1)]
  {
    var entries := [("Energy", Subscriber(1)), ("Users", Subscriber(1))];
    assert StrLess("Energy", "Users");
    assert SmallestKey(entries, Subscriber(1)) == Some("Energy") by {
      assert SmallestKey(entries[1..], Subscriber(1)) == Some("Users");
    }
    var after := entries + [("Users", Subscriber(1))];
    assert after[..2] == entries && entries[..1] == [("Energy", Subscriber(1))];
  }

  /** As written, re-registering is skipped when `ns` is the handler's smallest namespace. */
  lemma RegisterAsWrittenSkipsSmallest(entries: seq<Entry>, ns: string, h: Handler)
    requires (ns, h) in entries
    requires forall i :: 0 <= i < |entries| && entries[i].1 == h ==> !StrLess(entries[i].0, ns)
    ensures RegisterAsWritten(entries, ns, h) == entries
  {
    var i :| 0 <= i < |entries| && entries[i] == (ns, h);
    var k := SmallestKey(entries, h).value;
    var j :| 0 <= j < |entries| && entries[j] == (k, h);
    StrLessTotal(k, ns);
  }

  /** As written, a handler registered nowhere is never registered for the empty namespace. */
  lemma RegisterAsWrittenSkipsEmpty(entries: seq<Entry>, h: Handler)
    requires !Registered(entries, h)
    ensures RegisterAsWritten(entries, "", h) == entries
    ensures ("", h) in Register(entries, "", h)
  {
  }

  /** Away from the two flaws above, the code as written registers exactly as intended. */
  lemma RegisterAsWrittenAgrees(entries: seq<Entry>, ns: string, h: Handler)
    requires ns != "" || Registered(entries, h)
    requires (ns, h) in entries ==> KeyOf(entries, h) == ns
    ensures RegisterAsWritten(entries, ns, h) == Register(entries, ns, h)
  {
  }

  lemma {:induction false} StrLessTotal(a: string, b: string)
    requires !StrLess(a, b) && !StrLess(b, a)
    ensures a == b
  {
    if |a| > 0 && |b| > 0 {
      StrLessTotal(a[1..], b[1..]);
      assert a == [a[0]] + a[1..] && b == [b[0]] + b[1..];
    }
  }

  /** Registration keeps the registry free of repeated pairs, and repeating it changes nothing. */
  lemma RegisterIdempotent(entries: seq<Entry>, ns: string, h: Handler)
    requires NoDuplicates(entries)
    ensures NoDuplicates(Register(entries, ns, h))
    ensures Register(Register(entries, ns, h), ns, h) == Register(entries, ns, h)
  {
  }

  /** In a registry without repeated pairs a handler receives each notification of its namespace once. */
  lemma {:induction false} DeliveredOnce(entries: seq<Entry>, ns: string, h: Handler)
    requires NoDuplicates(entries)
    ensures Occurrences(HandlersFor(entries, ns), h) == if (ns, h) in entries then 1 else 0
    decreases |entries|
  {
    if entries != [] {
      var init := entries[..|entries| - 1];
      var last := entries[|entries| - 1];
      assert entries == init + [last];
      DeliveredOnce(init, ns, h);
      var hs := HandlersFor(entries, ns);
      var tail := HandlersFor(init, ns);
      if last.0 == ns {
        assert hs == [last.1] + tail;
        assert hs[1..] == tail;
        if last == (ns, h) {
          assert (ns, h) !in init;
        }
      } else {
        assert hs == tail;
      }
    }
  }

  /** Unregistering removes exactly the given handler from every namespace. */
  lemma UnregisterRemovesOnly(entries: seq<Entry>, h: Handler, g: Handler, ns: string)
    ensures g in HandlersFor(Unregister(entries, h), ns) <==> g != h && g in HandlersFor(entries, ns)
  {
  }

  /** Unregistering undoes a registration. */
  lemma {:induction false} UnregisterUndoesRegister(entries: seq<Entry>, ns: string, h: Handler)
    ensures Unregister(Register(entries, ns, h), h) == Unregister(entries, h)
  {
    if (ns, h) !in entries {
      UnregisterAppend(entries, (ns, h), h);
    }
  }

  lemma {:induction false} UnregisterAppend(entries: seq<Entry>, e: Entry, h: Handler)
    ensures Unregister(entries + [e], h) == Unregister(entries, h) + (if e.1 == h then [] else [e])
    decreases |entries|
  {
    if entries == [] {
      assert Unregister([e], h) == (if e.1 == h then [] else [e]) + Unregister([], h);
    } else {
      assert (entries + [e])[1..] == entries[1..] + [e];
      UnregisterAppend(entries[1..], e, h);
    }
  }

  /** Removing a handler keeps a registry without repeated pairs free of them. */
  lemma {:induction false} UnregisterKeepsNoDuplicates(entries: seq<Entry>, h: Handler)
    requires NoDuplicates(entries)
    ensures NoDuplicates(Unregister(entries, h))
  {
    if entries != [] {
      var rest := Unregister(entries[1..], h);
      UnregisterKeepsNoDuplicates(entries[1..], h);
      if entries[0].1 != h {
        assert entries[0] !in entries[1..] by {
          forall j | 0 <= j < |entries[1..]| ensures entries[1..][j] != entries[0] {
            assert entries[1..][j] == entries[j + 1];
          }
        }
        assert entries[0] !in rest;
        var r := [entries[0]] + rest;
        forall i, j | 0 <= i < j < |r| ensures r[i] != r[j] {
          if i > 0 {
            assert r[i] == rest[i - 1] && r[j] == rest[j - 1];
          } else {
            assert r[j] == rest[j - 1];
          }
        }
      }
    }
  }
}
