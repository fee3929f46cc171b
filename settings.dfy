/** The equipment-list edits of the settings view. Each edit builds a new list. */
module Settings {
  import opened Profile

  /** A change of one field of an entry: the name or the sensitivity threshold. */
  datatype Edit = SetName(name: string) | SetSensitivity(sensitivity: real)

  /** `{ ...eq, [field]: value }`: the edited field takes the new value, the others are kept. */
  function Apply(eq: Equipment, edit: Edit): (r: Equipment)
    ensures r.id == eq.id
    ensures r.name == (if edit.SetName? then edit.name else eq.name)
    ensures r.sensitivity == (if edit.SetSensitivity? then edit.sensitivity else eq.sensitivity)
  {
    match edit
    case SetName(n) => eq.(name := n)
    case SetSensitivity(s) => eq.(sensitivity := s)
  }

  /** Applies `edit` to every entry whose id is `id`. */
  function UpdateEquipment(eqs: seq<Equipment>, id: int, edit: Edit): (r: seq<Equipment>)
    ensures |r| == |eqs|
    ensures forall i :: 0 <= i < |eqs| ==>
      r[i] == if eqs[i].id == id then Apply(eqs[i], edit) else eqs[i]
  {
    if |eqs| == 0 then []
    else [if eqs[0].id == id then Apply(eqs[0], edit) else eqs[0]] + UpdateEquipment(eqs[1..], id, edit)
  }

  /** Editing keeps every id in place, so the ids stay unique. */
  lemma UpdateKeepsIds(eqs: seq<Equipment>, id: int, edit: Edit)
    ensures forall i :: 0 <= i < |eqs| ==> UpdateEquipment(eqs, id, edit)[i].id == eqs[i].id
    ensures UniqueIds(eqs) ==> UniqueIds(UpdateEquipment(eqs, id, edit))
  {
  }

  /** Editing an id that no entry has changes nothing. */
  lemma UpdateAbsentIsIdentity(eqs: seq<Equipment>, id: int, edit: Edit)
    requires !HasId(eqs, id)
    ensures UpdateEquipment(eqs, id, edit) == eqs
  {
  }

  /** Making the same edit twice is the same as making it once. */
  lemma UpdateIdempotent(eqs: seq<Equipment>, id: int, edit: Edit)
    ensures UpdateEquipment(UpdateEquipment(eqs, id, edit), id, edit) == UpdateEquipment(eqs, id, edit)
  {
  }

  /** The largest id of a non-empty list. */
  function MaxId(eqs: seq<Equipment>): (m: int)
    requires |eqs| > 0
    ensures forall i :: 0 <= i < |eqs| ==> eqs[i].id <= m
    ensures exists i :: 0 <= i < |eqs| && eqs[i].id == m
  {
    if |eqs| == 1 then eqs[0].id
    else
      var rest := MaxId(eqs[1..]);
      if eqs[0].id < rest then rest else eqs[0].id
  }

  /** The id a new entry receives: 1 for an empty list, otherwise one more than the largest id. */
  function NewId(eqs: seq<Equipment>): (n: int)
    ensures |eqs| == 0 ==> n == 1
    ensures |eqs| > 0 ==> HasId(eqs, n - 1)
    ensures forall i :: 0 <= i < |eqs| ==> eqs[i].id < n
  {
    if |eqs| > 0 then MaxId(eqs) + 1 else 1
  }

  const NewEquipmentName: string := "신규 장비"

  /** Appends a default entry with a fresh id; the existing entries are kept as they are. */
  function AddEquipment(eqs: seq<Equipment>): (r: seq<Equipment>)
    ensures |r| == |eqs| + 1
    ensures r[..|eqs|] == eqs
    ensures r[|eqs|].name == NewEquipmentName && r[|eqs|].sensitivity == 10.0
    ensures r[|eqs|].id == NewId(eqs) && !HasId(eqs, r[|eqs|].id)
  {
    eqs + [Equipment(NewId(eqs), NewEquipmentName, 10.0)]
  }

  lemma AddKeepsUniqueIds(eqs: seq<Equipment>)
    requires UniqueIds(eqs)
    ensures UniqueIds(AddEquipment(eqs))
  {
  }

  /** `eqs.filter(eq => eq.id !== id)`. */
  function RemoveEquipment(eqs: seq<Equipment>, id: int): (r: seq<Equipment>)
    ensures |r| <= |eqs|
    ensures forall i :: 0 <= i < |r| ==> r[i].id != id
  {
    if |eqs| == 0 then []
    else if eqs[0].id == id then RemoveEquipment(eqs[1..], id)
    else [eqs[0]] + RemoveEquipment(eqs[1..], id)
  }

  /** An entry is kept exactly when it was in the list and has another id. */
  lemma {:induction false} RemoveKeepsOthers(eqs: seq<Equipment>, id: int)
    ensures forall e :: e in RemoveEquipment(eqs, id) <==> e in eqs && e.id != id
  {
    if |eqs| > 0 {
      RemoveKeepsOthers(eqs[1..], id);
      assert eqs == [eqs[0]] + eqs[1..];
    }
  }

  /** Removal works piece by piece, so the kept entries stay in their original order. */
  lemma {:induction false} RemoveDistributes(a: seq<Equipment>, b: seq<Equipment>, id: int)
    ensures RemoveEquipment(a + b, id) == RemoveEquipment(a, id) + RemoveEquipment(b, id)
  {
    if |a| == 0 {
      assert a + b == b;
    } else {
      var ab := a + b;
      assert ab[0] == a[0] && ab[1..] == a[1..] + b;
      RemoveDistributes(a[1..], b, id);
      var rest := RemoveEquipment(a[1..], id);
      if a[0].id == id {
        assert RemoveEquipment(ab, id) == RemoveEquipment(ab[1..], id);
        assert RemoveEquipment(a, id) == rest;
      } else {
        assert RemoveEquipment(ab, id) == [a[0]] + RemoveEquipment(ab[1..], id);
        assert RemoveEquipment(a, id) == [a[0]] + rest;
        assert [a[0]] + (rest + RemoveEquipment(b, id)) == ([a[0]] + rest) + RemoveEquipment(b, id);
      }
    }
  }

  /** Removing an id that no entry has leaves the list unchanged. */
  lemma {:induction false} RemoveAbsentIsIdentity(eqs: seq<Equipment>, id: int)
    requires !HasId(eqs, id)
    ensures RemoveEquipment(eqs, id) == eqs
  {
    if |eqs| > 0 {
      assert !HasId(eqs[1..], id) by {
        forall i | 0 <= i < |eqs| - 1 ensures eqs[1..][i].id != id {
          assert eqs[1..][i] == eqs[i + 1];
        }
      }
      RemoveAbsentIsIdentity(eqs[1..], id);
      assert eqs == [eqs[0]] + eqs[1..];
    }
  }

  /** Removing an id that exactly one entry has shortens the list by one. */
  lemma {:induction false} RemoveDropsOne(eqs: seq<Equipment>, id: int)
    requires UniqueIds(eqs) && HasId(eqs, id)
    ensures |RemoveEquipment(eqs, id)| == |eqs| - 1
  {
    if eqs[0].id == id {
      assert !HasId(eqs[1..], id) by {
        forall i | 0 <= i < |eqs| - 1 ensures eqs[1..][i].id != id {
          assert eqs[1..][i] == eqs[i + 1];
        }
      }
      RemoveAbsentIsIdentity(eqs[1..], id);
    } else {
      var k :| 0 <= k < |eqs| && eqs[k].id == id;
      assert eqs[1..][k - 1] == eqs[k];
      RemoveDropsOne(eqs[1..], id);
    }
  }

  /** Removing the entry just added gives the list back. */
  lemma AddThenRemove(eqs: seq<Equipment>)
    ensures RemoveEquipment(AddEquipment(eqs), NewId(eqs)) == eqs
  {
    var n := NewId(eqs);
    RemoveDistributes(eqs, [Equipment(n, NewEquipmentName, 10.0)], n);
    RemoveAbsentIsIdentity(eqs, n);
  }

  /** Editing an entry and then removing it is the same as removing it. */
  lemma {:induction false} UpdateThenRemove(eqs: seq<Equipment>, id: int, edit: Edit)
    ensures RemoveEquipment(UpdateEquipment(eqs, id, edit), id) == RemoveEquipment(eqs, id)
  {
    if |eqs| > 0 {
      var u := UpdateEquipment(eqs, id, edit);
      assert u[1..] == UpdateEquipment(eqs[1..], id, edit);
      UpdateThenRemove(eqs[1..], id, edit);
    }
  }

  lemma {:induction false} RemoveKeepsUniqueIds(eqs: seq<Equipment>, id: int)
    requires UniqueIds(eqs)
    ensures UniqueIds(RemoveEquipment(eqs, id))
  {
    if |eqs| > 0 {
      var tail := eqs[1..];
      assert UniqueIds(tail) by {
        forall i, j | 0 <= i < j < |tail| ensures tail[i].id != tail[j].id {
          assert tail[i] == eqs[i + 1] && tail[j] == eqs[j + 1];
        }
      }
      RemoveKeepsUniqueIds(tail, id);
      RemoveKeepsOthers(tail, id);
      var rest := RemoveEquipment(tail, id);
      if eqs[0].id != id {
        var r := [eqs[0]] + rest;
        forall i, j | 0 <= i < j < |r| ensures r[i].id != r[j].id {
          assert r[j] == rest[j - 1];
          if i == 0 {
            assert rest[j - 1] in tail;
            var k :| 0 <= k < |tail| && tail[k] == rest[j - 1];
            assert tail[k] == eqs[k + 1];
          } else {
            assert r[i] == rest[i - 1];
          }
        }
      }
    }
  }
}
