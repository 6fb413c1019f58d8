/**
 * The legacy media picker migrator (`MediaPickerMigrator` for the
 * pre-value API): the data type moves to "Umbraco.MediaPicker2" and its
 * values from ids to media udis; the new pre-values keep the start node
 * and switch multiple picking, images only and folder-select blocking off.
 */
module MediaPicker {
  import opened Wrappers
  import opened Platform
  import opened Transforms
  import LegacyIdToUdi
  import UdiToId
  import DataTypeMigration

  type PreValues = DataTypeMigration.PreValues

  /** `GetNewPropertyEditorAlias` and `GetNewPropertyContentBaseType`. */
  const EditorAlias: string := "Umbraco.MediaPicker2"
  const ContentBaseType: BaseType := Media

  const StartNodeId: string := "startNodeId"
  /** The three switches written as "0". */
  const Switches: set<string> := {"multiPicker", "onlyImages", "disableFolderSelect"}

  /** `new PreValue("0")`: no row id and sort order yet. */
  const Off: Option<DataTypeMigration.PreValue> := Some(DataTypeMigration.PreValue(Some("0"), 0, 0))

  /** The pre-values `GetNewPreValues` returns for the old ones (`None` for null). */
  function NewPreValues(oldPreValues: Option<PreValues>): PreValues
  {
    var start: PreValues :=
      if oldPreValues.Some? && StartNodeId in oldPreValues.value then map[StartNodeId := oldPreValues.value[StartNodeId]] else map[];
    start["multiPicker" := Off]["onlyImages" := Off]["disableFolderSelect" := Off]
  }

  /**
   * Exactly the three switches, all "0", and the start node when the old
   * pre-values have one, copied as it is.
   */
  lemma NewPreValuesFacts(oldPreValues: Option<PreValues>)
    ensures var starts := oldPreValues.Some? && StartNodeId in oldPreValues.value;
      var r := NewPreValues(oldPreValues);
      r.Keys == Switches + (if starts then {StartNodeId} else {})
      && (forall k :: k in Switches ==> r[k] == Off)
      && (starts ==> r[StartNodeId] == oldPreValues.value[StartNodeId])
  {
    var starts := oldPreValues.Some? && StartNodeId in oldPreValues.value;
    var r := NewPreValues(oldPreValues);
    assert StartNodeId !in Switches;
    if starts {
      assert r.Keys == {StartNodeId, "multiPicker", "onlyImages", "disableFolderSelect"};
    } else {
      assert r.Keys == {"multiPicker", "onlyImages", "disableFolderSelect"};
    }
  }

  /** `GetNewPreValues`: the dictionary written entry by entry. */
  method GetNewPreValues(oldPreValues: Option<PreValues>) returns (preValues: PreValues)
    ensures preValues == NewPreValues(oldPreValues)
    ensures |preValues| == (if oldPreValues.Some? && StartNodeId in oldPreValues.value then 4 else 3)
  {
    preValues := map[];
    if oldPreValues.Some? && StartNodeId in oldPreValues.value {
      preValues := preValues[StartNodeId := oldPreValues.value[StartNodeId]];
    }
    preValues := preValues["multiPicker" := Off];
    preValues := preValues["onlyImages" := Off];
    preValues := preValues["disableFolderSelect" := Off];
    NewPreValuesFacts(oldPreValues);
    if oldPreValues.Some? && StartNodeId in oldPreValues.value {
      assert |{StartNodeId, "multiPicker", "onlyImages", "disableFolderSelect"}| == 4;
    } else {
      assert |{"multiPicker", "onlyImages", "disableFolderSelect"}| == 3;
    }
  }

  /** The property migration of the base `IdToUdiMigrator`: ids to media udis, and back. */
  function Migration(): (m: PropertyMigration)
    ensures m.upgrader == Present(LegacyIdToUdi.Transform(Media)) && m.downgrader == Present(UdiToId.Transform())
  {
    PropertyMigration(Present(LegacyIdToUdi.Transform(ContentBaseType)), Present(UdiToId.Transform()))
  }

  /**
   * The migrator: every media picker needs migrating, to "Umbraco.MediaPicker2"
   * stored as text, with the new pre-values.
   */
  function AsMigrator(): (m: DataTypeMigration.Migrator)
    ensures forall d, p :: m.needsMigration(d, p)
    ensures forall d, p, retain :: m.propertyMigration(d, p, retain) == Ok(Some(Migration()))
    ensures forall d, p :: m.newEditorAlias(d, p) == Ok("Umbraco.MediaPicker2") && m.newDatabaseType(d, p) == Ok(DataTypeMigration.Ntext)
    ensures forall d, p :: m.newPreValues(d, p) == Ok(Some(NewPreValues(Some(p))))
  {
    DataTypeMigration.Migrator(
      (d, p) => true,
      (d, p, retain: bool) => Ok(Some(Migration())),
      (d, p) => Ok(DataTypeMigration.Ntext),
      (d, p) => Ok(EditorAlias),
      (d, p: PreValues) => Ok(Some(NewPreValues(Some(p)))))
  }
}
