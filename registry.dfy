/** The value behind the server's `Map<string, Tool>`: the keys in
    first-insertion order and the entry of each key. ECMAScript `Map.set`
    replaces the value of a present key in place and appends a new key at
    the end; `Map.delete` removes the key and keeps the others in order. */
module ToolRegistry {
  import opened Wrappers
  import opened Types

  datatype Registry = Registry(order: seq<string>, entries: map<string, Tool>)

  /** Every key occurs once in the order, and the order lists exactly the keys. */
  ghost predicate Valid(r: Registry) {
    && Distinct(r.order)
    && (forall k :: k in r.entries <==> k in r.order)
  }

  /** Each tool is stored under its own name. */
  ghost predicate Keyed(r: Registry) {
    forall k :: k in r.entries ==> r.entries[k].name == k
  }

  ghost predicate Distinct(s: seq<string>) {
    forall i, j :: 0 <= i < j < |s| ==> s[i] != s[j]
  }

  const Empty: Registry := Registry([], map[])

  /** `tools.set(t.name, t)`. */
  function Set(r: Registry, t: Tool): (r': Registry)
    requires Valid(r)
    ensures Valid(r')
    ensures r'.entries == r.entries[t.name := t]
  {
    if t.name in r.entries then Registry(r.order, r.entries[t.name := t])
    else Registry(r.order + [t.name], r.entries[t.name := t])
  }

  /** The `updateTools` loop: `set` for each tool in turn. */
  function SetAll(r: Registry, ts: seq<Tool>): (r': Registry)
    requires Valid(r)
    ensures Valid(r')
  {
    if |ts| == 0 then r else Set(SetAll(r, ts[..|ts| - 1]), ts[|ts| - 1])
  }

  /** `updateTools` stores every tool under its own name. */
  lemma {:induction false} SetAllKeyed(r: Registry, ts: seq<Tool>)
    requires Valid(r) && Keyed(r)
    ensures Keyed(SetAll(r, ts))
  {
    if |ts| > 0 {
      SetAllKeyed(r, ts[..|ts| - 1]);
    }
  }

  /** `order` without `name`, the others in their order. */
  function Without(order: seq<string>, name: string): (o: seq<string>)
    ensures forall k :: k in o <==> k in order && k != name
  {
    if |order| == 0 then []
    else if order[0] == name then Without(order[1..], name)
    else [order[0]] + Without(order[1..], name)
  }

  /** `tools.delete(name)`. */
  function Delete(r: Registry, name: string): (r': Registry)
    requires Valid(r)
  {
    Registry(Without(r.order, name), r.entries - {name})
  }

  /** `Array.from(tools.values())`. */
  function Values(r: Registry): (vs: seq<Tool>)
    requires Valid(r)
    ensures |vs| == |r.order|
    ensures forall i :: 0 <= i < |r.order| ==> vs[i] == r.entries[r.order[i]]
  {
    seq(|r.order|, i requires 0 <= i < |r.order| => r.entries[r.order[i]])
  }

  /** The call handler's match: a tool answers to its name or its Actor full name. */
  predicate Matches(t: Tool, name: string) {
    t.name == name || t.FullName() == Some(name)
  }

  /** Position of the first tool that matches `name`; `|ts|` when none does. */
  function FindIndex(ts: seq<Tool>, name: string): (i: nat)
    ensures i <= |ts|
    ensures forall j :: 0 <= j < i ==> !Matches(ts[j], name)
    ensures i < |ts| ==> Matches(ts[i], name)
  {
    if |ts| == 0 then 0
    else if Matches(ts[0], name) then 0
    else 1 + FindIndex(ts[1..], name)
  }

  /** `ts[i]` is the first tool of `ts` that matches `name`. */
  predicate FirstMatchAt(ts: seq<Tool>, name: string, i: nat) {
    i < |ts| && Matches(ts[i], name) && forall j :: 0 <= j < i ==> !Matches(ts[j], name)
  }

  /** `Array.from(tools.values()).find((t) => t.name === name || t.actorFullName === name)`. */
  function Find(ts: seq<Tool>, name: string): (found: Option<Tool>)
    ensures found.None? <==> forall j :: 0 <= j < |ts| ==> !Matches(ts[j], name)
    ensures found.Some? ==> exists i: nat :: FirstMatchAt(ts, name, i) && found.value == ts[i]
  {
    var i := FindIndex(ts, name);
    if i < |ts| then Some(ts[i]) else None
  }

  /** The last tool of `ts` named `name`, if any: the one `updateTools` keeps. */
  function LastNamed(ts: seq<Tool>, name: string): Option<Tool> {
    if |ts| == 0 then None
    else if ts[|ts| - 1].name == name then Some(ts[|ts| - 1])
    else LastNamed(ts[..|ts| - 1], name)
  }

  /** After `updateTools(ts)` each name of `ts` maps to the last tool of `ts`
      with that name, and every other key keeps its entry (or stays absent). */
  lemma {:induction false} SetAllLastWins(r: Registry, ts: seq<Tool>, k: string)
    requires Valid(r)
    ensures LastNamed(ts, k).Some? ==> k in SetAll(r, ts).entries && SetAll(r, ts).entries[k] == LastNamed(ts, k).value
    ensures LastNamed(ts, k).None? ==> ((k in SetAll(r, ts).entries <==> k in r.entries)
      && (k in r.entries ==> SetAll(r, ts).entries[k] == r.entries[k]))
  {
    if |ts| > 0 {
      SetAllLastWins(r, ts[..|ts| - 1], k);
    }
  }

  /** `LastNamed` finds a tool exactly for the names that occur in the list. */
  lemma {:induction false} LastNamedFound(ts: seq<Tool>, k: string)
    ensures LastNamed(ts, k).Some? <==> k in NamesOf(ts)
    ensures LastNamed(ts, k).Some? ==> LastNamed(ts, k).value in ts && LastNamed(ts, k).value.name == k
  {
    if |ts| > 0 {
      var init := ts[..|ts| - 1];
      LastNamedFound(init, k);
      assert NamesOf(ts) == NamesOf(init) + [ts[|ts| - 1].name];
    }
  }

  /** The entry of one key after `updateTools(ts)`: the last tool of `ts`
      with that name, or the old entry when `ts` has no tool of that name. */
  lemma SetAllEntry(r: Registry, ts: seq<Tool>, k: string)
    requires Valid(r)
    ensures k in NamesOf(ts) ==> k in SetAll(r, ts).entries && LastNamed(ts, k) == Some(SetAll(r, ts).entries[k])
    ensures k !in NamesOf(ts) ==> ((k in SetAll(r, ts).entries <==> k in r.entries)
      && (k in r.entries ==> SetAll(r, ts).entries[k] == r.entries[k]))
  {
    SetAllLastWins(r, ts, k);
    LastNamedFound(ts, k);
  }

  /** `updateTools` keeps the existing keys where they are (a replaced name
      keeps its position) and only appends names from `ts`. */
  lemma {:induction false} SetAllKeepsOrder(r: Registry, ts: seq<Tool>)
    requires Valid(r)
    ensures r.order <= SetAll(r, ts).order
    ensures forall k :: k in SetAll(r, ts).order ==> k in r.order || k in NamesOf(ts)
  {
    if |ts| > 0 {
      var init := ts[..|ts| - 1];
      SetAllKeepsOrder(r, init);
      assert NamesOf(ts) == NamesOf(init) + [ts[|ts| - 1].name];
    }
  }

  /** Upserting a tool with a new name lists one more tool, the new one last;
      upserting an existing name lists as many tools as before, the new one in
      the old one's place. */
  lemma UpsertListing(r: Registry, t: Tool)
    requires Valid(r)
    ensures t.name !in r.entries ==> Values(Set(r, t)) == Values(r) + [t]
    ensures t.name in r.entries ==> (|Values(Set(r, t))| == |Values(r)|
      && forall i :: 0 <= i < |r.order| ==> Values(Set(r, t))[i] == if r.order[i] == t.name then t else Values(r)[i])
  {
    if t.name !in r.entries {
      assert Values(Set(r, t)) == Values(r) + [t];
    }
  }

  /** `delete` removes exactly the name, whether or not it was present, and
      keeps every other entry. */
  lemma DeleteEffect(r: Registry, name: string)
    requires Valid(r)
    ensures Valid(Delete(r, name))
    ensures name !in Delete(r, name).entries
    ensures forall k :: k != name ==> ((k in Delete(r, name).entries <==> k in r.entries)
      && (k in r.entries ==> Delete(r, name).entries[k] == r.entries[k]))
    ensures name !in r.entries ==> Delete(r, name) == r
  {
    WithoutDistinct(r.order, name);
    if name !in r.entries {
      WithoutAbsent(r.order, name);
    }
  }

  /** `delete` of a present name cuts it out of the key order at its position:
      the keys before it and after it keep their relative order. */
  lemma DeleteKeepsOrder(r: Registry, name: string)
    requires Valid(r)
    ensures forall i :: 0 <= i < |r.order| && r.order[i] == name ==>
      Delete(r, name).order == r.order[..i] + r.order[i + 1..]
  {
    forall i | 0 <= i < |r.order| && r.order[i] == name
      ensures Delete(r, name).order == r.order[..i] + r.order[i + 1..]
    {
      WithoutDistinctAt(r.order, name, i);
    }
  }

  /** In a duplicate-free order, removing `name` at `i` cuts out just that position. */
  lemma WithoutDistinctAt(order: seq<string>, name: string, i: nat)
    requires Distinct(order) && i < |order| && order[i] == name
    ensures Without(order, name) == order[..i] + order[i + 1..]
  {
    var pre, post := order[..i], order[i + 1..];
    assert name !in pre by {
      forall j | 0 <= j < |pre| ensures pre[j] != name {
        assert pre[j] == order[j];
      }
    }
    assert name !in post by {
      forall j | 0 <= j < |post| ensures post[j] != name {
        assert post[j] == order[i + 1 + j];
      }
    }
    WithoutAt(order, name, i);
  }

  /** Removing the only occurrence of `name` cuts it out and keeps the rest in order. */
  lemma {:induction false} WithoutAt(order: seq<string>, name: string, i: nat)
    requires i < |order| && order[i] == name
    requires name !in order[..i] && name !in order[i + 1..]
    ensures Without(order, name) == order[..i] + order[i + 1..]
  {
    if i == 0 {
      WithoutAbsent(order[1..], name);
      assert order[..0] + order[1..] == order[1..];
    } else {
      var tail := order[1..];
      assert tail[..i - 1] == order[1..i];
      assert order[0] == order[..i][0];
      var pre := order[..i];
      var pre' := tail[..i - 1];
      assert name !in pre' by {
        forall j | 0 <= j < |pre'| ensures pre'[j] != name {
          assert pre'[j] == pre[j + 1];
        }
      }
      assert tail[i - 1] == name;
      assert tail[i..] == order[i + 1..];
      WithoutAt(tail, name, i - 1);
      assert order[..i] == [order[0]] + tail[..i - 1];
      assert order[..i] + order[i + 1..] == [order[0]] + (tail[..i - 1] + tail[i..]);
    }
  }

  lemma {:induction false} WithoutDistinct(order: seq<string>, name: string)
    requires Distinct(order)
    ensures Distinct(Without(order, name))
  {
    if |order| > 0 {
      var tail := order[1..];
      assert Distinct(tail) by {
        forall i, j | 0 <= i < j < |tail| ensures tail[i] != tail[j] {
          assert tail[i] == order[i + 1] && tail[j] == order[j + 1];
        }
      }
      WithoutDistinct(tail, name);
      var o := Without(tail, name);
      assert order[0] !in tail by {
        forall j | 0 <= j < |tail| ensures tail[j] != order[0] {
          assert tail[j] == order[j + 1];
        }
      }
      if order[0] != name {
        var o' := [order[0]] + o;
        assert Without(order, name) == o';
        assert order[0] !in o;
        forall i, j | 0 <= i < j < |o'| ensures o'[i] != o'[j] {
          if i > 0 {
            assert o'[i] == o[i - 1] && o'[j] == o[j - 1];
          } else {
            assert o'[j] == o[j - 1];
          }
        }
      }
    }
  }

  lemma {:induction false} WithoutAbsent(order: seq<string>, name: string)
    requires name !in order
    ensures Without(order, name) == order
  {
    if |order| > 0 {
      WithoutAbsent(order[1..], name);
      assert [order[0]] + order[1..] == order;
    }
  }
}
