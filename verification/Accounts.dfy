/** A Things account with the reader and the writer the spoke uses: one write at a time, each of which may fail. */
module Accounts {
  import opened Basics
  import opened HubSpec
  import opened SpokeSpec

  // ----- the reader's search -----

  ghost predicate InOrder(view: Todos, rows: seq<Uuid>) {
    && (forall i :: 0 <= i < |rows| ==> rows[i] in view)
    && (forall i, j :: 0 <= i < j < |rows| ==> view[rows[i]].created <= view[rows[j]].created)
  }

  /** The rows of the correlation query: every match, oldest first. */
  ghost predicate IsRows(view: Todos, title: string, after: Time, provenance: string, rows: seq<Uuid>) {
    && Distinct(rows)
    && (forall u :: u in rows <==> Matches(view, u, title, after, provenance, {}))
    && InOrder(view, rows)
  }

  /** The first row not already known. */
  function FirstFresh(rows: seq<Uuid>, exclude: set<Uuid>): Option<Uuid> {
    if rows == [] then None
    else if rows[0] !in exclude then Some(rows[0])
    else FirstFresh(rows[1..], exclude)
  }

  lemma {:induction false} FirstFreshAt(rows: seq<Uuid>, exclude: set<Uuid>)
    ensures match FirstFresh(rows, exclude)
      case None => forall i :: 0 <= i < |rows| ==> rows[i] in exclude
      case Some(u) => u !in exclude && exists i :: 0 <= i < |rows| && rows[i] == u && forall j :: 0 <= j < i ==> rows[j] in exclude
  {
    if rows != [] && rows[0] in exclude {
      FirstFreshAt(rows[1..], exclude);
      if FirstFresh(rows[1..], exclude).Some? {
        var u := FirstFresh(rows[1..], exclude).value;
        var i :| 0 <= i < |rows[1..]| && rows[1..][i] == u && forall j :: 0 <= j < i ==> rows[1..][j] in exclude;
        assert rows[i + 1] == u;
        assert forall j :: 0 <= j < i + 1 ==> rows[j] in exclude by {
          forall j | 0 < j < i + 1 ensures rows[j] in exclude { assert rows[1..][j - 1] in exclude; }
        }
      } else {
        forall i | 0 < i < |rows| ensures rows[i] in exclude { assert rows[1..][i - 1] in exclude; }
      }
    }
  }

  /** Skipping known rows in creation order finds the earliest fresh match, whenever there is one. */
  lemma SearchIsEarliest(view: Todos, title: string, after: Time, provenance: string, rows: seq<Uuid>, exclude: set<Uuid>)
    requires IsRows(view, title, after, provenance, rows)
    ensures match FirstFresh(rows, exclude)
      case None => forall u :: !Matches(view, u, title, after, provenance, exclude)
      case Some(u) => Earliest(view, u, title, after, provenance, exclude)
  {
    FirstFreshAt(rows, exclude);
    match FirstFresh(rows, exclude)
    case None =>
      forall u ensures !Matches(view, u, title, after, provenance, exclude) {
        if Matches(view, u, title, after, provenance, {}) { assert u in rows; }
      }
    case Some(first) =>
      var i :| 0 <= i < |rows| && rows[i] == first && forall j :: 0 <= j < i ==> rows[j] in exclude;
      assert first in rows;
      forall u | Matches(view, u, title, after, provenance, exclude) ensures view[first].created <= view[u].created {
        assert u in rows;
        var j :| 0 <= j < |rows| && rows[j] == u;
      }
  }

  // ----- the account -----

  class Account {
    var todos: Todos
    var mirror: Todos
    ghost var asked: Todos

    ghost function Here(): Home
      reads this
    {
      Home(todos, mirror, asked)
    }

    constructor ()
      ensures todos == mirror == map[]
    {
      todos, mirror := map[], map[];
    }

    /** The mirror moves to some view of the account; to the account itself if nothing goes wrong. */
    method Refresh(faults: bool)
      modifies this`mirror
      ensures Shows(old(Here()), mirror)
      ensures !faults ==> mirror == todos
    {
      var view: Todos := *;
      mirror := if faults && Shows(Home(todos, mirror, map[]), view) then view else todos;
    }

    method Oldest(us: set<Uuid>) returns (first: Uuid)
      requires us != {} && forall u :: u in us ==> u in mirror
      ensures first in us && forall u :: u in us ==> mirror[first].created <= mirror[u].created
    {
      first :| first in us;
      var rest := us - {first};
      while rest != {}
        invariant rest <= us && first in us
        invariant forall u :: u in us ==> u in rest || mirror[first].created <= mirror[u].created
        decreases |rest|
      {
        var u :| u in rest;
        if mirror[u].created < mirror[first].created { first := u; }
        rest := rest - {u};
      }
    }

    method Rows(title: string, after: Time, provenance: string) returns (rows: seq<Uuid>)
      ensures IsRows(mirror, title, after, provenance, rows)
    {
      var rest := set u | u in mirror && Matches(mirror, u, title, after, provenance, {});
      rows := [];
      while rest != {}
        invariant forall u :: u in rest || u in rows <==> Matches(mirror, u, title, after, provenance, {})
        invariant forall u :: u in rows ==> u !in rest
        invariant Distinct(rows)
        invariant InOrder(mirror, rows)
        invariant forall u, v :: u in rows && v in rest ==> mirror[u].created <= mirror[v].created
        decreases |rest|
      {
        var next := Oldest(rest);
        rows := rows + [next];
        rest := rest - {next};
      }
    }

    /** A uuid Things has not used. */
    method FreshUuid() returns (unused: Uuid)
      ensures unused !in todos && unused != ""
    {
      var rest := todos.Keys;
      var longest: nat := 0;
      while rest != {}
        invariant rest <= todos.Keys
        invariant forall u :: u in todos ==> u in rest || |u| <= longest
        decreases |rest|
      {
        var u :| u in rest;
        if |u| > longest { longest := |u|; }
        rest := rest - {u};
      }
      unused := seq(longest + 1, _ => 'x');
    }

    /** A creation date; if nothing goes wrong, one past the base and past every todo's. */
    method Stamp(base: Time, faults: bool) returns (created: Time)
      ensures faults || (base <= created && Newest(todos, created))
    {
      created := *;
      if !faults {
        created := base;
        var rest := todos.Keys;
        while rest != {}
          invariant rest <= todos.Keys && base <= created
          invariant forall u :: u in todos ==> u in rest || todos[u].created <= created
          decreases |rest|
        {
          var u :| u in rest;
          if todos[u].created > created { created := todos[u].created; }
          rest := rest - {u};
        }
      }
    }

    method Create(uuid: Uuid, todo: Todo)
      modifies this`todos
      ensures todos == old(todos)[uuid := todo]
    {
      todos := todos[uuid := todo];
    }

    /** Complete or cancel a todo; a write may land and still go unverified. */
    method SetTerminal(uuid: Uuid, how: Terminal, faults: bool) returns (landed: bool, verified: bool)
      modifies this`todos
      ensures (landed ==> uuid in old(todos)) && (verified ==> landed) && (faults || verified || uuid !in old(todos))
      ensures landed ==> todos == old(todos)[uuid := old(todos)[uuid].(status := Ended(how))]
      ensures !landed ==> todos == old(todos)
    {
      landed, verified := Attempt(uuid, faults);
      if landed { todos := todos[uuid := todos[uuid].(status := Ended(how))]; }
    }

    /** Complete or cancel a todo and set its tags; unknown tags are dropped silently, and then the write is not verified. */
    method SetTagsAndTerminal(uuid: Uuid, tags: set<string>, how: Terminal, faults: bool)
      returns (landed: bool, verified: bool, kept: set<string>)
      modifies this`todos
      ensures (landed ==> uuid in old(todos)) && (verified ==> landed) && (faults || verified || uuid !in old(todos))
      ensures kept <= tags && (verified ==> kept == tags)
      ensures landed ==> todos == old(todos)[uuid := old(todos)[uuid].(tags := kept, status := Ended(how))]
      ensures !landed ==> todos == old(todos)
    {
      landed, verified := Attempt(uuid, faults);
      kept := tags;
      if faults {
        var known: set<string> := *;
        kept := tags * known;
      }
      verified := verified && kept == tags;
      if landed { todos := todos[uuid := todos[uuid].(tags := kept, status := Ended(how))]; }
    }

    method Attempt(uuid: Uuid, faults: bool) returns (landed: bool, verified: bool)
      ensures (landed ==> uuid in todos) && (verified ==> landed) && (faults || verified || uuid !in todos)
    {
      landed, verified := *, *;
      landed := uuid in todos && (!faults || landed);
      verified := landed && (!faults || verified);
    }
  }
}
