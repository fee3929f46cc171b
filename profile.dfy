/** The unit profile: the unit's default threshold and its equipment list. */
module Profile {

  /** One equipment entry; `sensitivity` is the error (in metres) above which it is at risk. */
  datatype Equipment = Equipment(id: int, name: string, sensitivity: real)

  datatype UnitProfile = UnitProfile(unitName: string, defaultThreshold: real, equipment: seq<Equipment>)

  /** The profile the application starts from when nothing has been saved. */
  const DefaultProfile: UnitProfile :=
    UnitProfile("제17전투비행단", 10.0,
      [ Equipment(1, "JDAM", 10.0),
        Equipment(2, "정찰 드론 (A형)", 15.0),
        Equipment(3, "전술 데이터링크", 8.0) ])

  /** No two entries share an id. */
  predicate UniqueIds(eqs: seq<Equipment>)
  {
    forall i, j :: 0 <= i < j < |eqs| ==> eqs[i].id != eqs[j].id
  }

  predicate HasId(eqs: seq<Equipment>, id: int)
  {
    exists i :: 0 <= i < |eqs| && eqs[i].id == id
  }
}
