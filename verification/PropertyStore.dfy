/** Properties with scopes, as the SQLite back end keeps them (src/db/sqlite.cpp): a table
    with one value per key and scope, and a query that picks the closest scope. */
module PropertyStore {
  import opened Settings

  // A part that is "" is not restricted; all three empty is the global scope.
  datatype Scope = Scope(network: string, receiver: string, sender: string)

  // The primary key of the table.
  datatype Row = Row(key: string, scope: Scope)

  type Table = map<Row, string>

  // ----- The query -----

  // The WHERE clause: the row's scope encloses the scope asked for.
  predicate Covers(s: Scope, q: Scope) {
    && (s.network == q.network || s.network == "")
    && (s.receiver == q.receiver || s.receiver == "")
    && (s.sender == q.sender || s.sender == "")
  }

  function Matches(t: Table, key: string, q: Scope): set<Row> {
    set r | r in t && r.key == key && Covers(r.scope, q)
  }

  // The order of strings in the database: character by character.
  predicate Below(a: string, b: string) {
    b != "" && (a == "" || a[0] < b[0] || (a[0] == b[0] && Below(a[1..], b[1..])))
  }

  // ORDER BY network DESC, receiver DESC, sender DESC.
  predicate Before(a: Scope, b: Scope) {
    || Below(b.network, a.network)
    || (a.network == b.network && Below(b.receiver, a.receiver))
    || (a.network == b.network && a.receiver == b.receiver && Below(b.sender, a.sender))
  }

  // LIMIT 1.
  predicate IsFirst(rows: set<Row>, r: Row) {
    r in rows && forall o | o in rows && o != r :: Before(r.scope, o.scope)
  }

  // ----- The chain of scopes -----

  // From the scope asked for outwards, the sender given up first.
  function Chain(q: Scope): seq<Scope> {
    [ q,
      Scope(q.network, q.receiver, ""),
      Scope(q.network, "", q.sender),
      Scope(q.network, "", ""),
      Scope("", q.receiver, q.sender),
      Scope("", q.receiver, ""),
      Scope("", "", q.sender),
      Scope("", "", "") ]
  }

  // The first of some scopes at which the key has a value.
  function FirstSet(t: Table, key: string, scopes: seq<Scope>): (h: Option<Scope>)
    ensures h.Some? ==> Row(key, h.value) in t && h.value in scopes
    ensures h.None? ==> forall s | s in scopes :: Row(key, s) !in t
  {
    if scopes == [] then None
    else if Row(key, scopes[0]) in t then Some(scopes[0])
    else FirstSet(t, key, scopes[1..])
  }

  function Hit(t: Table, key: string, q: Scope): Option<Scope> {
    FirstSet(t, key, Chain(q))
  }

  function Lookup(t: Table, key: string, q: Scope): string {
    match Hit(t, key, q)
    case None => ""
    case Some(s) => t[Row(key, s)]
  }

  // Where in the chain a scope stands: a binary number of the parts that were given up.
  function Place(s: Scope, q: Scope): (i: nat)
    ensures i < 8
  {
    (if s.network == q.network then 0 else 4) + (if s.receiver == q.receiver then 0 else 2)
      + (if s.sender == q.sender then 0 else 1)
  }

  lemma PlaceInChain(s: Scope, q: Scope)
    ensures Covers(s, q) <==> s in Chain(q)
    ensures Covers(s, q) ==> Chain(q)[Place(s, q)] == s
  {
    if Covers(s, q) {
      assert s == Scope(s.network, s.receiver, s.sender);
    }
  }

  lemma PlaceIsEarliest(q: Scope, i: nat)
    requires i < 8
    ensures Place(Chain(q)[i], q) <= i
  {
  }

  lemma {:induction false} BelowIsStrict(a: string)
    ensures !Below(a, a) && !Below(a, "")
    decreases |a|
  {
    if a != "" {
      BelowIsStrict(a[1..]);
    }
  }

  // Among the scopes that enclose q, the order of the query is that of the chain.
  lemma OrderIsPlace(a: Scope, b: Scope, q: Scope)
    requires Covers(a, q) && Covers(b, q)
    ensures Before(a, b) <==> Place(a, q) < Place(b, q)
  {
    BelowIsStrict(q.network);
    BelowIsStrict(q.receiver);
    BelowIsStrict(q.sender);
  }

  lemma {:induction false} FirstSetIsEarliest(t: Table, key: string, scopes: seq<Scope>) returns (i: nat)
    requires FirstSet(t, key, scopes).Some?
    ensures i < |scopes| && scopes[i] == FirstSet(t, key, scopes).value
    ensures forall j | 0 <= j < i :: Row(key, scopes[j]) !in t
  {
    if Row(key, scopes[0]) in t {
      i := 0;
    } else {
      i := FirstSetIsEarliest(t, key, scopes[1..]);
      i := i + 1;
      assert forall j | 1 <= j < i :: scopes[j] == scopes[1..][j - 1];
    }
  }

  lemma {:induction false} EarliestIsFirstSet(t: Table, key: string, scopes: seq<Scope>, i: nat)
    requires i < |scopes| && Row(key, scopes[i]) in t && forall j | 0 <= j < i :: Row(key, scopes[j]) !in t
    ensures FirstSet(t, key, scopes) == Some(scopes[i])
    decreases i
  {
    if i > 0 {
      assert forall j | 0 <= j < i - 1 :: scopes[1..][j] == scopes[j + 1];
      EarliestIsFirstSet(t, key, scopes[1..], i - 1);
    }
  }

  lemma HitIsFirst(t: Table, key: string, q: Scope)
    requires Hit(t, key, q).Some?
    ensures
      var hit := Row(key, Hit(t, key, q).value);
      && IsFirst(Matches(t, key, q), hit)
      && forall r | r in Matches(t, key, q) && r != hit :: !Before(r.scope, hit.scope)
  {
    var hit := Row(key, Hit(t, key, q).value);
    var i := FirstSetIsEarliest(t, key, Chain(q));
    PlaceInChain(hit.scope, q);
    PlaceIsEarliest(q, i);
    forall r | r in Matches(t, key, q) && r != hit
      ensures Before(hit.scope, r.scope) && !Before(r.scope, hit.scope)
    {
      PlaceInChain(r.scope, q);
      OrderIsPlace(hit.scope, r.scope, q);
      OrderIsPlace(r.scope, hit.scope, q);
    }
  }

  // The sorted query finds a row if and only if the chain does, and it finds that one.
  lemma QueryIsChain(t: Table, key: string, q: Scope, r: Row)
    ensures Hit(t, key, q).None? <==> Matches(t, key, q) == {}
    ensures IsFirst(Matches(t, key, q), r) <==> Hit(t, key, q) == Some(r.scope) && r.key == key
  {
    forall s ensures Covers(s, q) <==> s in Chain(q) {
      PlaceInChain(s, q);
    }
    if Hit(t, key, q).Some? {
      HitIsFirst(t, key, q);
      assert Row(key, Hit(t, key, q).value) in Matches(t, key, q);
    }
  }

  // ----- The documented fallback -----

  // Sender, receiver, network, global.
  function Levels(q: Scope): seq<Scope> {
    [q, Scope(q.network, q.receiver, ""), Scope(q.network, "", ""), Scope("", "", "")]
  }

  predicate Hierarchical(s: Scope) {
    (s.sender != "" ==> s.receiver != "") && (s.receiver != "" ==> s.network != "")
  }

  function DocumentedHit(t: Table, key: string, q: Scope): Option<Scope> {
    FirstSet(t, key, Levels(q))
  }

  // Which level the i-th scope of the chain belongs to if it skips none, and where a level
  // stands in the chain.
  function LevelAt(i: nat): nat {
    if i < 2 then i else if i < 4 then 2 else 3
  }

  function PlaceOfLevel(l: nat): nat {
    if l < 2 then l else if l == 2 then 3 else 7
  }

  lemma LevelOfChain(q: Scope, i: nat)
    requires i < 8 && Hierarchical(Chain(q)[i])
    ensures Chain(q)[i] == Levels(q)[LevelAt(i)]
  {
  }

  lemma LevelInChain(q: Scope, l: nat)
    requires l < 4
    ensures Levels(q)[l] == Chain(q)[PlaceOfLevel(l)] && Levels(q)[l] in Chain(q)
  {
  }

  lemma HierarchicalIsDocumented(t: Table, key: string, q: Scope)
    requires forall s | Row(key, s) in t :: Hierarchical(s)
    ensures Hit(t, key, q) == DocumentedHit(t, key, q)
  {
    forall l: nat | l < 4 {
      LevelInChain(q, l);
    }
    if Hit(t, key, q).Some? {
      var i := FirstSetIsEarliest(t, key, Chain(q));
      LevelOfChain(q, i);
      EarliestIsFirstSet(t, key, Levels(q), LevelAt(i));
    }
  }

  // A string longer than any of a set.
  lemma {:induction false} Fresh(names: set<string>) returns (name: string)
    ensures name != "" && forall n | n in names :: |n| < |name|
    decreases names
  {
    if names == {} {
      name := "x";
    } else {
      var n :| n in names;
      var other := Fresh(names - {n});
      name := other + n + "x";
    }
  }

  // Nothing closer is set when the parts it leaves open name things unheard of.
  lemma SkippedAlone(t: Table, key: string, q: Scope, s: Scope)
    requires Covers(s, q) && s.sender == q.sender
    requires s.network == "" ==> q.network != "" && forall r | r in t :: r.scope.network != q.network
    requires s.receiver == "" ==> q.receiver != "" && forall r | r in t :: r.scope.receiver != q.receiver
    ensures forall j | 0 <= j < Place(s, q) :: Row(key, Chain(q)[j]) !in t
  {
  }

  lemma SkippedIsNoLevel(q: Scope, s: Scope)
    requires !Hierarchical(s) && s.sender == q.sender && q.network != "" && q.receiver != ""
    requires s.receiver == "" || s.receiver == q.receiver
    ensures s == q || s !in Levels(q)
  {
  }

  // A row that skips a level is found by a query the documentation answers otherwise.
  lemma SkippingIsFound(t: Table, key: string, s: Scope) returns (q: Scope)
    requires Row(key, s) in t && !Hierarchical(s)
    ensures Hit(t, key, q) != DocumentedHit(t, key, q)
  {
    var name := Fresh(set r | r in t :: r.scope.network);
    var name' := Fresh(set r | r in t :: r.scope.receiver);
    q := Scope(if s.network == "" then name else s.network, if s.receiver == "" then name' else s.receiver, s.sender);
    PlaceInChain(s, q);
    SkippedAlone(t, key, q, s);
    EarliestIsFirstSet(t, key, Chain(q), Place(s, q));
    SkippedIsNoLevel(q, s);
  }

  // The query answers from the documented scope, whatever it is asked, if and only if no
  // row of the key skips a level.
  lemma DocumentedExactly(t: Table, key: string)
    ensures (forall q :: Hit(t, key, q) == DocumentedHit(t, key, q)) <==>
      forall s | Row(key, s) in t :: Hierarchical(s)
  {
    if forall s | Row(key, s) in t :: Hierarchical(s) {
      forall q {
        HierarchicalIsDocumented(t, key, q);
      }
    } else {
      var s :| Row(key, s) in t && !Hierarchical(s);
      var q := SkippingIsFound(t, key, s);
    }
  }

  // ----- Writes -----

  datatype Write = Write(key: string, scope: Scope, value: string)

  // Setting a property to nothing removes it.
  function Written(t: Table, w: Write): Table {
    var row := Row(w.key, w.scope);
    if w.value == "" then t - {row} else t[row := w.value]
  }

  function Play(t: Table, writes: seq<Write>): Table {
    if writes == [] then t
    else Written(Play(t, writes[..|writes| - 1]), writes[|writes| - 1])
  }

  // What a row was last set to, if ever.
  function LastWrite(writes: seq<Write>, row: Row): Option<string> {
    if writes == [] then None
    else
      var n := |writes| - 1;
      if Row(writes[n].key, writes[n].scope) == row then Some(writes[n].value)
      else LastWrite(writes[..n], row)
  }

  predicate HoldsValues(t: Table) {
    forall r | r in t :: t[r] != ""
  }

  // After any history, a row holds what it was last set to, and is gone if that was nothing.
  lemma {:induction false} PlayIsLastWrite(t: Table, writes: seq<Write>, row: Row)
    ensures
      match LastWrite(writes, row)
      case None => (row in Play(t, writes) <==> row in t) && (row in t ==> Play(t, writes)[row] == t[row])
      case Some(v) => (row in Play(t, writes) <==> v != "") && (v != "" ==> Play(t, writes)[row] == v)
  {
    if writes != [] {
      PlayIsLastWrite(t, writes[..|writes| - 1], row);
    }
  }

  lemma {:induction false} PlayHoldsValues(t: Table, writes: seq<Write>)
    requires HoldsValues(t)
    ensures HoldsValues(Play(t, writes))
  {
    if writes != [] {
      PlayHoldsValues(t, writes[..|writes| - 1]);
    }
  }

  // So a history that started from an empty table answers a query by the first scope of the
  // chain that was last set to something, and by nothing if there is none.
  predicate AnswersFrom(writes: seq<Write>, key: string, q: Scope, i: nat)
    requires i < 8
  {
    && LastWrite(writes, Row(key, Chain(q)[i])).Some?
    && LastWrite(writes, Row(key, Chain(q)[i])).value == Lookup(Play(map[], writes), key, q) != ""
    && forall j | 0 <= j < i :: LastWrite(writes, Row(key, Chain(q)[j])) in {None, Some("")}
  }

  lemma RowsFromHistory(writes: seq<Write>, key: string, q: Scope, i: nat)
    requires i < 8
    ensures
      var row := Row(key, Chain(q)[i]);
      row in Play(map[], writes) <==> LastWrite(writes, row) !in {None, Some("")}
  {
    PlayIsLastWrite(map[], writes, Row(key, Chain(q)[i]));
  }

  lemma HitAnswers(writes: seq<Write>, key: string, q: Scope) returns (i: nat)
    requires Hit(Play(map[], writes), key, q).Some?
    ensures i < 8 && AnswersFrom(writes, key, q, i)
  {
    var t: Table := Play(map[], writes);
    PlayHoldsValues(map[], writes);
    i := FirstSetIsEarliest(t, key, Chain(q));
    PlayIsLastWrite(map[], writes, Row(key, Chain(q)[i]));
    forall j | 0 <= j < i ensures LastWrite(writes, Row(key, Chain(q)[j])) in {None, Some("")} {
      RowsFromHistory(writes, key, q, j);
    }
  }

  lemma LookupFromHistory(writes: seq<Write>, key: string, q: Scope)
    ensures Lookup(Play(map[], writes), key, q) != "" <==> exists i | 0 <= i < 8 :: AnswersFrom(writes, key, q, i)
    ensures Lookup(Play(map[], writes), key, q) == "" <==>
      forall i | 0 <= i < 8 :: LastWrite(writes, Row(key, Chain(q)[i])) in {None, Some("")}
  {
    if Hit(Play(map[], writes), key, q).Some? {
      var i := HitAnswers(writes, key, q);
    } else {
      forall i | 0 <= i < 8 ensures LastWrite(writes, Row(key, Chain(q)[i])) in {None, Some("")} {
        assert Chain(q)[i] in Chain(q);
        RowsFromHistory(writes, key, q, i);
      }
    }
  }

  lemma {:induction false} SameRowsSameHit(t: Table, t': Table, key: string, scopes: seq<Scope>)
    requires forall s | s in scopes ::
      (Row(key, s) in t <==> Row(key, s) in t') && (Row(key, s) in t ==> t[Row(key, s)] == t'[Row(key, s)])
    ensures FirstSet(t, key, scopes) == FirstSet(t', key, scopes)
  {
    if scopes != [] {
      SameRowsSameHit(t, t', key, scopes[1..]);
    }
  }

  // A write is only noticed by queries for its key from within its scope.
  lemma WriteIsLocal(t: Table, w: Write, key: string, q: Scope)
    requires key != w.key || !Covers(w.scope, q)
    ensures Hit(Written(t, w), key, q) == Hit(t, key, q) && Lookup(Written(t, w), key, q) == Lookup(t, key, q)
  {
    PlaceInChain(w.scope, q);
    SameRowsSameHit(t, Written(t, w), key, Chain(q));
  }

  // Within it, a value that is set is found if and only if nothing closer is set.
  lemma SetIsFound(t: Table, w: Write, q: Scope)
    requires w.value != "" && Covers(w.scope, q)
    ensures Hit(Written(t, w), w.key, q) == Some(w.scope) <==>
      forall s | Row(w.key, s) in t && Covers(s, q) && s != w.scope :: Before(w.scope, s)
    ensures Hit(Written(t, w), w.key, q) != Some(w.scope) ==> Hit(Written(t, w), w.key, q) == Hit(t, w.key, q)
  {
    var t' := Written(t, w);
    var row := Row(w.key, w.scope);
    QueryIsChain(t', w.key, q, row);
    if Hit(t', w.key, q) == Some(w.scope) {
      assert IsFirst(Matches(t', w.key, q), row);
      forall s | Row(w.key, s) in t && Covers(s, q) && s != w.scope ensures Before(w.scope, s) {
        assert Row(w.key, s) in Matches(t', w.key, q);
      }
    } else {
      OthersDecide(t, t', row, Chain(q));
    }
  }

  // Two tables that differ in one row agree on every query that does not find it.
  lemma {:induction false} OthersDecide(t: Table, t': Table, row: Row, scopes: seq<Scope>)
    requires t - {row} == t' - {row} && FirstSet(t', row.key, scopes) != Some(row.scope)
    requires row in t' || row !in t
    ensures FirstSet(t, row.key, scopes) == FirstSet(t', row.key, scopes)
  {
    if scopes != [] {
      var first := Row(row.key, scopes[0]);
      if first != row {
        assert first in t <==> first in t - {row};
        assert first in t' <==> first in t' - {row};
      }
      if first !in t' {
        OthersDecide(t, t', row, scopes[1..]);
      }
    }
  }

  // Removing it changes no answer that did not come from it, and where it was the answer,
  // what is left is the next closest.
  lemma UnsetReveals(t: Table, key: string, s: Scope, q: Scope, r: Row)
    ensures
      var t' := Written(t, Write(key, s, ""));
      if Hit(t, key, q) != Some(s) then Hit(t', key, q) == Hit(t, key, q)
      else
        && (Hit(t', key, q).None? <==> Matches(t, key, q) == {Row(key, s)})
        && (IsFirst(Matches(t, key, q) - {Row(key, s)}, r) <==> Hit(t', key, q) == Some(r.scope) && r.key == key)
  {
    var t' := Written(t, Write(key, s, ""));
    if Hit(t, key, q) != Some(s) {
      OthersDecide(t', t, Row(key, s), Chain(q));
    } else {
      QueryIsChain(t, key, q, Row(key, s));
      QueryIsChain(t', key, q, r);
      assert Matches(t', key, q) == Matches(t, key, q) - {Row(key, s)};
      assert Row(key, s) in Matches(t, key, q);
    }
  }

  // ----- Listing keys -----

  predicate StartsWith(s: string, prefix: string) {
    |prefix| <= |s| && s[..|prefix|] == prefix
  }

  // The rows of exactly one scope whose keys have a prefix.
  function Listed(t: Table, prefix: string, scope: Scope): set<Row> {
    set r | r in t && StartsWith(r.key, prefix) && r.scope == scope
  }

  // A key is listed if and only if asking for it at that scope is answered at that scope,
  // and the answer is then what is stored there.
  lemma ListedIsStoredThere(t: Table, prefix: string, scope: Scope, key: string)
    requires StartsWith(key, prefix)
    ensures Row(key, scope) in Listed(t, prefix, scope) <==> Hit(t, key, scope) == Some(scope)
    ensures Row(key, scope) in t ==> Lookup(t, key, scope) == t[Row(key, scope)]
  {
    assert Chain(scope)[0] == scope;
  }

  // The documentation lists the keys in a namespace, by what follows its name and a dot.
  function NamesIn(t: Table, namespace: string, scope: Scope): set<string> {
    var prefix := if namespace == "" then "" else namespace + ".";
    set r | r in Listed(t, prefix, scope) :: r.key[|prefix|..]
  }

  function KeysListed(t: Table, prefix: string, scope: Scope): set<string> {
    set r | r in Listed(t, prefix, scope) :: r.key
  }

  lemma {:induction false} Longest(keys: set<string>) returns (longest: string)
    requires keys != {}
    ensures longest in keys && forall key | key in keys :: |key| <= |longest|
  {
    longest :| longest in keys;
    if keys != {longest} {
      var other := Longest(keys - {longest});
      if |other| > |longest| {
        longest := other;
      }
    }
  }

  // What is listed are whole keys, so it is as documented only for the whole store, or if
  // there is nothing to list.
  lemma ListedAsDocumentedExactly(t: Table, namespace: string, scope: Scope)
    ensures KeysListed(t, namespace, scope) == NamesIn(t, namespace, scope) <==>
      namespace == "" || KeysListed(t, namespace, scope) == {}
  {
    if namespace == "" {
      WholeKeys(t, scope);
    } else {
      NamesAreLonger(t, namespace, scope);
      if KeysListed(t, namespace, scope) != {} {
        var key := Longest(KeysListed(t, namespace, scope));
        assert key !in NamesIn(t, namespace, scope);
      }
    }
  }

  lemma WholeKeys(t: Table, scope: Scope)
    ensures KeysListed(t, "", scope) == NamesIn(t, "", scope)
  {
    forall r | r in Listed(t, "", scope) ensures r.key[|""|..] == r.key {
    }
  }

  // Every name belongs to a longer key that is listed.
  lemma NamesAreLonger(t: Table, namespace: string, scope: Scope)
    requires namespace != ""
    ensures forall name | name in NamesIn(t, namespace, scope) ::
      exists key :: key in KeysListed(t, namespace, scope) && |key| > |name|
  {
    var prefix := namespace + ".";
    forall r | r in Listed(t, prefix, scope) ensures r.key in KeysListed(t, namespace, scope) {
      assert r.key[..|prefix|][..|namespace|] == namespace;
      assert r in Listed(t, namespace, scope);
    }
  }

  // ----- The object -----

  class SQLiteDatabase {
    var properties: Table
    ghost var history: seq<Write>

    ghost predicate Valid()
      reads this
    {
      properties == Play(map[], history)
    }

    constructor ()
      ensures Valid() && history == []
    {
      properties, history := map[], [];
    }

    // The statement find_property.
    method Property(key: string, scope: Scope) returns (value: string)
      ensures value == Lookup(properties, key, scope)
    {
      var rows := Matches(properties, key, scope);
      QueryIsChain(properties, key, scope, Row(key, scope));
      if rows == {} {
        value := "";
      } else {
        HitIsFirst(properties, key, scope);
        var row :| row in rows && IsFirst(rows, row);
        QueryIsChain(properties, key, scope, row);
        value := properties[row];
      }
    }

    method SetProperty(key: string, value: string, scope: Scope)
      requires Valid()
      modifies this
      ensures Valid() && history == old(history) + [Write(key, scope, value)]
      ensures properties == Written(old(properties), Write(key, scope, value))
    {
      if value == "" {
        properties := properties - {Row(key, scope)};
      } else {
        properties := properties[Row(key, scope) := value];
      }
      assert (history + [Write(key, scope, value)])[..|history|] == history;
      history := history + [Write(key, scope, value)];
    }

    // The database hands out the rows one by one, in an order of its own.
    method PropertyKeys(prefix: string, scope: Scope) returns (keys: seq<string>)
      ensures forall key :: key in keys <==> Row(key, scope) in Listed(properties, prefix, scope)
      ensures forall i, j | 0 <= i < j < |keys| :: keys[i] != keys[j]
      ensures forall key | key in keys :: Lookup(properties, key, scope) == properties[Row(key, scope)]
    {
      keys := [];
      var rows := Listed(properties, prefix, scope);
      while rows != {}
        invariant rows <= Listed(properties, prefix, scope)
        invariant forall key :: key in keys <==> Row(key, scope) in Listed(properties, prefix, scope) - rows
        invariant forall i, j | 0 <= i < j < |keys| :: keys[i] != keys[j]
        decreases rows
      {
        var row :| row in rows;
        assert row == Row(row.key, scope);
        keys := keys + [row.key];
        rows := rows - {row};
      }
      forall key | key in keys ensures Lookup(properties, key, scope) == properties[Row(key, scope)] {
        ListedIsStoredThere(properties, prefix, scope, key);
      }
    }
  }
}
