/** Vocabulary shared by every service of the model. */
module Common {

  /** Primary keys. The store hands out cuid() strings; the model hands out
      numbers, each larger than every key already handed out. */
  type Id = nat

  datatype Option<+T> = None | Some(value: T)

  /** The HTTP failures the services raise. Internal is an exception nobody catches. */
  datatype Failure = BadRequest | Unauthorized | Forbidden | NotFound | Conflict | Unprocessable | Internal

  datatype Result<+T> = Ok(value: T) | Err(error: Failure)

  datatype OrgStatus = PendingApproval | Active | Rejected | Suspended

  ghost predicate Distinct<T>(s: seq<T>) {
    forall i, j :: 0 <= i < j < |s| ==> s[i] != s[j]
  }

  /** A finite set has an element whose key is least. */
  lemma {:induction false} Least(ids: set<Id>, key: map<Id, int>) returns (m: Id)
    requires ids != {} && ids <= key.Keys
    ensures m in ids && forall y :: y in ids ==> key[m] <= key[y]
    decreases ids
  {
    var x :| x in ids;
    var rest := ids - {x};
    m := x;
    assert forall y :: y in ids ==> y == x || y in rest;
    if rest != {} {
      var r := Least(rest, key);
      if key[r] < key[x] {
        m := r;
      }
    }
  }

  /** No key twice, and keys in ascending order of what the table says of them. */
  ghost predicate Ascending(s: seq<Id>, key: map<Id, int>) {
    && Distinct(s)
    && (forall x :: x in s ==> x in key)
    && (forall i, j :: 0 <= i < j < |s| ==> key[s[i]] <= key[s[j]])
  }

  lemma AscendingAppend(s: seq<Id>, key: map<Id, int>, x: Id)
    requires Ascending(s, key) && x in key && x !in s && forall y :: y in s ==> key[y] <= key[x]
    ensures Ascending(s + [x], key)
  {
    forall i | 0 <= i < |s| ensures s[i] != x && key[s[i]] <= key[x] {
      assert s[i] in s;
    }
  }

  /** findMany with an orderBy: every selected row once, in ascending order. */
  method OrderBy(ids: set<Id>, key: map<Id, int>) returns (s: seq<Id>)
    requires ids <= key.Keys
    ensures Ascending(s, key) && forall x :: x in s <==> x in ids
  {
    s := [];
    var rest := ids;
    while rest != {}
      invariant rest <= ids && Ascending(s, key)
      invariant forall x :: x in s <==> x in ids && x !in rest
      invariant forall x, y :: x in s && y in rest ==> key[x] <= key[y]
      decreases rest
    {
      ghost var least := Least(rest, key);
      var m :| m in rest && forall y :: y in rest ==> key[m] <= key[y];
      AscendingAppend(s, key, m);
      s := s + [m];
      rest := rest - {m};
    }
  }
}
