/** What the role tracks of both revisions share: a track hands out a list of grants, the
    role ids go into the member's new role list, and the names of the roles the member did
    not hold yet are reported as gained, in order. */
module RoleGrants {
  import opened Discord

  /** One role a track hands out: `role` goes into the role list, and `name` is reported as
      gained unless the member already holds `checked`. The Rust version always checks the
      role itself; the TypeScript revision checks another role once. */
  datatype Grant = Grant(role: RoleId, checked: RoleId, name: string)

  /** The list of role ids of the grants, in order. */
  function Ids(gs: seq<Grant>): (r: seq<RoleId>)
    ensures |r| == |gs|
  {
    if |gs| == 0 then [] else [gs[0].role] + Ids(gs[1..])
  }

  /** Entry `i` of the roles is the role of grant `i`. */
  lemma {:induction false} IdsIndex(gs: seq<Grant>)
    ensures forall i :: 0 <= i < |gs| ==> Ids(gs)[i] == gs[i].role
  {
    if |gs| > 0 {
      IdsIndex(gs[1..]);
      assert forall i :: 0 < i < |gs| ==> gs[i] == gs[1..][i - 1];
    }
  }

  /** The names reported as gained, in order: one for each grant whose `checked` role the
      member lacks, and nothing else. */
  function NewNames(held: seq<RoleId>, gs: seq<Grant>): (r: seq<string>)
    ensures |r| <= |gs|
  {
    if |gs| == 0 then []
    else (if gs[0].checked in held then [] else [gs[0].name]) + NewNames(held, gs[1..])
  }

  /** Every reported name is the name of a grant whose checked role the member lacks, and
      every such grant has its name reported. */
  lemma {:induction false} NewNamesMembers(held: seq<RoleId>, gs: seq<Grant>)
    ensures forall n :: n in NewNames(held, gs) ==>
              exists i :: 0 <= i < |gs| && gs[i].name == n && gs[i].checked !in held
    ensures forall i :: 0 <= i < |gs| && gs[i].checked !in held ==> gs[i].name in NewNames(held, gs)
  {
    if |gs| > 0 {
      NewNamesMembers(held, gs[1..]);
      assert forall i :: 0 < i < |gs| ==> gs[i] == gs[1..][i - 1];
      forall n | n in NewNames(held, gs)
        ensures exists i :: 0 <= i < |gs| && gs[i].name == n && gs[i].checked !in held
      {
        if n !in NewNames(held, gs[1..]) {
          assert gs[0].name == n && gs[0].checked !in held;
        } else {
          var j :| 0 <= j < |gs[1..]| && gs[1..][j].name == n && gs[1..][j].checked !in held;
          assert gs[j + 1] == gs[1..][j];
        }
      }
    }
  }

  lemma {:induction false} IdsAppend(a: seq<Grant>, b: seq<Grant>)
    ensures Ids(a + b) == Ids(a) + Ids(b)
  {
    if |a| > 0 {
      assert (a + b)[1..] == a[1..] + b;
      IdsAppend(a[1..], b);
    } else {
      assert a + b == b;
    }
  }

  /** The names gained from two lists of grants handed out one after the other. */
  lemma {:induction false} NewNamesAppend(held: seq<RoleId>, a: seq<Grant>, b: seq<Grant>)
    ensures NewNames(held, a + b) == NewNames(held, a) + NewNames(held, b)
  {
    if |a| > 0 {
      assert (a + b)[0] == a[0];
      assert (a + b)[1..] == a[1..] + b;
      NewNamesAppend(held, a[1..], b);
    } else {
      assert a + b == b;
    }
  }

  /** The roles of three lists of grants handed out one after the other. */
  lemma Ids3(m: seq<Grant>, p: seq<Grant>, t: seq<Grant>)
    ensures Ids(m) + Ids(p) + Ids(t) == Ids(m + p + t)
  {
    IdsAppend(m, p);
    IdsAppend(m + p, t);
  }

  /** The names of three lists of grants handed out one after the other. */
  lemma NewNames3(held: seq<RoleId>, m: seq<Grant>, p: seq<Grant>, t: seq<Grant>)
    ensures NewNames(held, m) + NewNames(held, p) + NewNames(held, t) == NewNames(held, m + p + t)
  {
    NewNamesAppend(held, m, p);
    NewNamesAppend(held, m + p, t);
  }

  /** Three lists of grants handed out one after the other, each recorded as it went. */
  lemma Sequence3(held: seq<RoleId>, m: seq<Grant>, p: seq<Grant>, t: seq<Grant>,
                  a: seq<RoleId>, b: seq<RoleId>, c: seq<RoleId>,
                  n0: seq<string>, n1: seq<string>, n2: seq<string>, n3: seq<string>)
    requires a == Ids(m) && b == Ids(p) && c == Ids(t)
    requires n1 == n0 + NewNames(held, m) && n2 == n1 + NewNames(held, p) && n3 == n2 + NewNames(held, t)
    ensures a + b + c == Ids(m + p + t)
    ensures n3 == n0 + NewNames(held, m + p + t)
  {
    Ids3(m, p, t);
    NewNames3(held, m, p, t);
    var x, y, z := NewNames(held, m), NewNames(held, p), NewNames(held, t);
    assert n0 + x + y + z == n0 + (x + y + z);
  }

  /** Nothing is reported as gained exactly when the member already holds every checked role. */
  lemma NewNamesEmpty(held: seq<RoleId>, gs: seq<Grant>)
    ensures NewNames(held, gs) == [] <==> forall i :: 0 <= i < |gs| ==> gs[i].checked in held
  {
    NewNamesMembers(held, gs);
    if NewNames(held, gs) != [] {
      assert NewNames(held, gs)[0] in NewNames(held, gs);
    }
  }

  /** Grants that each check their own role. */
  predicate SelfChecked(gs: seq<Grant>)
  {
    forall i :: 0 <= i < |gs| ==> gs[i].checked == gs[i].role
  }

  /** For grants that check their own role: nothing is gained exactly when every role
      handed out is already held. */
  lemma NewNamesEmptyIds(held: seq<RoleId>, gs: seq<Grant>)
    requires SelfChecked(gs)
    ensures NewNames(held, gs) == [] <==> forall x :: x in Ids(gs) ==> x in held
  {
    NewNamesEmpty(held, gs);
    IdsIndex(gs);
    assert forall i :: 0 <= i < |gs| ==> Ids(gs)[i] == gs[i].checked;
  }

  /** `gained_roles`: the growing list of names, shared by the tracks. */
  class GainedRoles {
    var names: seq<string>

    constructor()
      ensures names == []
    {
      names := [];
    }

    /** `gained_roles.push(name)`. */
    method Push(name: string)
      modifies this
      ensures names == old(names) + [name]
    {
      names := names + [name];
    }
  }
}
