/**
 * collectFormData: walks the inputs, textareas and selects of a form in
 * document order and builds a map from field key to field text.
 */
module Forms {
  import opened Wrappers
  import opened Records

  /** One form control, with the attributes collectFormData reads. */
  datatype Field = Field(fieldType: string, id: string, name: string, value: string, checked: bool)

  /**
   * The key a field is stored under: a radio button only when checked, under
   * its group name; any other control under its id, or its name when the id
   * is empty.
   */
  function KeyOf(f: Field): (k: Option<string>)
    ensures k.None? <==> f.fieldType == "radio" && !f.checked
    ensures k.Some? ==> k.value == f.id || k.value == f.name
  {
    if f.fieldType == "radio" then
      if f.checked then Some(f.name) else None
    else
      Some(if f.id != "" then f.id else f.name)
  }

  /** The map after visiting `fields` in order; a later write to a key replaces an earlier one. */
  function Collected(fields: seq<Field>): (data: FormValues)
    ensures |data| <= |fields|
    decreases |fields|
  {
    if |fields| == 0 then map[]
    else
      var n := |fields| - 1;
      var data := Collected(fields[..n]);
      match KeyOf(fields[n])
      case None => data
      case Some(k) => data[k := fields[n].value]
  }

  /** A key is present exactly when some field is stored under it. */
  lemma {:induction false} CollectedKeys(fields: seq<Field>, k: string)
    ensures k in Collected(fields) <==> exists i :: 0 <= i < |fields| && KeyOf(fields[i]) == Some(k)
    decreases |fields|
  {
    if |fields| > 0 {
      var n := |fields| - 1;
      CollectedKeys(fields[..n], k);
      if k in Collected(fields[..n]) {
        var i :| 0 <= i < n && KeyOf(fields[..n][i]) == Some(k);
        assert fields[i] == fields[..n][i];
      }
      if exists i :: 0 <= i < |fields| && KeyOf(fields[i]) == Some(k) {
        var i :| 0 <= i < |fields| && KeyOf(fields[i]) == Some(k);
        if i < n {
          assert fields[..n][i] == fields[i];
        }
      }
    }
  }

  /** The value under a key is that of the last field stored under it. */
  lemma {:induction false} CollectedLastWins(fields: seq<Field>, i: nat, k: string)
    requires i < |fields| && KeyOf(fields[i]) == Some(k)
    requires forall j :: i < j < |fields| ==> KeyOf(fields[j]) != Some(k)
    ensures k in Collected(fields) && Collected(fields)[k] == fields[i].value
    decreases |fields|
  {
    var n := |fields| - 1;
    if i < n {
      forall j | i < j < n ensures KeyOf(fields[..n][j]) != Some(k) {
        assert fields[..n][j] == fields[j];
      }
      CollectedLastWins(fields[..n], i, k);
    }
  }

  /** One more control: what it adds, in terms of its own attributes. */
  lemma CollectedStep(fields: seq<Field>, f: Field)
    ensures f.fieldType == "radio" && !f.checked ==> Collected(fields + [f]) == Collected(fields)
    ensures f.fieldType == "radio" && f.checked ==> Collected(fields + [f]) == Collected(fields)[f.name := f.value]
    ensures f.fieldType != "radio" && f.id != "" ==> Collected(fields + [f]) == Collected(fields)[f.id := f.value]
    ensures f.fieldType != "radio" && f.id == "" ==> Collected(fields + [f]) == Collected(fields)[f.name := f.value]
  {
    assert (fields + [f])[..|fields|] == fields;
  }
}
