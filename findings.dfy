/**
 * Concrete inputs that exhibit how the translator behaves in three corner
 * cases: a behaviour collection (which the code as written cannot walk), two
 * mappable links on one action (only the first is resolved), and an idref that
 * names no object (the link's inline properties are used instead).
 */
module Findings {
  import opened Wrappers
  import opened Maec
  import opened Oval
  import opened Translation

  const FileProperties := Properties("FileObj:FileObjectType", map["File_Path" := "/tmp/x"])
  const DirectoryProperties := Properties("FileObj:FileObjectType", map["File_Path" := "/tmp"])

  /** "create File", successful, with one output object. */
  const CreateFile := Action(Some("action-1"), "create File", Some("Success"),
    Some([AssociatedObject(Some("output"), None, Some(FileProperties))]))

  /** A bundle whose only action sits in a behaviour inside a behaviour collection. */
  const CollectedBundle := Bundle(None, None,
    Some(Collections(None, Some([BehaviorCollection(Some([Behavior(Some("behavior-1"), Some([CreateFile]))]))]))),
    map[])

  lemma CreateFileConverts(b: Bundle, m: Mapping)
    requires m(FileProperties, "action-1").Some?
    ensures Converts(CreateFile, b, m)
  {
    FirstTokenOfWord("create", "File");
    assert "create File" == "create" + [' '] + "File";
    assert FirstToken(CreateFile.name) == "create";
    assert "create" in SupportedActionTypes;
    assert SupportedAction(CreateFile);
    assert "Success" in AcceptedStatuses;
    assert StatusAccepted(CreateFile.status);
    assert HasLinks(CreateFile);
    var links := CreateFile.associatedObjects.value;
    var link := links[0];
    assert link.associationType == Some("output") && link.idref == None && link.properties == Some(FileProperties);
    assert "output" in AffectedRoles;
    assert RoleEligible(link.associationType);
    assert Dereference(link, b) == None;
    assert ResolvedProperties(link, None) == Some(FileProperties);
    assert ResolveMapping(link, "action-1", None, m) == m(FileProperties, "action-1");
    assert LinkMapping(links[0], "action-1", b, m).Some?;
    assert FirstMapped(links, "action-1", b, m) == LinkMapping(links[0], "action-1", b, m) by {
      assert links[..0] == [];
    }
  }

  /**
   * As written, walking `CollectedBundle` raises, so the run ends in the
   * catch-all of `generate_oval` and writes nothing; walked element by element,
   * as intended, its one action is converted.
   */
  lemma BehaviorCollectionRaises(m: Mapping)
    requires m(FileProperties, "action-1").Some?
    ensures BundleWalkAsWritten(CollectedBundle).Raised?
    ensures BundleActions(CollectedBundle) == [CreateFile]
    ensures StepActions(Initial, BundleActions(CollectedBundle), CollectedBundle, m).converted == ["action-1"]
  {
    var c := CollectedBundle.collections.value;
    var cs := c.behaviorCollections.value;
    var bc := cs[0];
    var bs := bc.behaviors.value;
    assert Forwarded(cs[0]);
    assert CollectionsWalkAsWritten(c).Raised?;
    assert BehaviorsActions(bs) == [CreateFile] by {
      assert bs[..0] == [];
    }
    assert BehaviorCollectionsActions(cs) == [CreateFile] by {
      assert cs[..0] == [];
      assert BehaviorCollectionActions(bc) == [CreateFile];
    }
    assert CollectionsActions(c) == [CreateFile];
    CreateFileConverts(CollectedBundle, m);
    assert [CreateFile][..0] == [];
  }

  /** "modify File" with two output links, both of which map. */
  const ModifyTwo := Action(Some("action-2"), "modify File", None,
    Some([AssociatedObject(Some("output"), None, Some(FileProperties)),
          AssociatedObject(Some("output"), None, Some(DirectoryProperties))]))

  /** Of the two mappable links, the action is converted with the first one's mapping. */
  lemma ModifyTwoVerdict(b: Bundle, m: Mapping)
    requires m(FileProperties, "action-2").Some?
    ensures ActionVerdict(ModifyTwo, b, m) == Converted(m(FileProperties, "action-2").value)
  {
    FirstTokenOfWord("modify", "File");
    assert "modify File" == "modify" + [' '] + "File";
    assert FirstToken(ModifyTwo.name) == "modify";
    assert "modify" in SupportedActionTypes;
    assert SupportedAction(ModifyTwo) && StatusAccepted(ModifyTwo.status) && HasLinks(ModifyTwo);
    var links := ModifyTwo.associatedObjects.value;
    var link := links[0];
    assert link.associationType == Some("output") && link.idref == None && link.properties == Some(FileProperties);
    assert "output" in AffectedRoles;
    assert RoleEligible(link.associationType);
    assert Dereference(link, b) == None;
    assert ResolvedProperties(link, None) == Some(FileProperties);
    assert ResolveMapping(link, "action-2", None, m) == m(FileProperties, "action-2");
    assert LinkMapping(links[0], "action-2", b, m) == m(FileProperties, "action-2");
    var first := links[..1];
    assert first[..0] == [] && first[0] == link;
    assert FirstMapped(first, "action-2", b, m) == m(FileProperties, "action-2");
    assert links[..|links| - 1] == first;
    assert FirstMapped(links, "action-2", b, m) == m(FileProperties, "action-2");
  }

  /** Only the first mappable link is resolved: one test and one definition, never two. */
  lemma ShortCircuitEmitsOnce(b: Bundle, m: Mapping)
    requires m(FileProperties, "action-2").Some? && m(DirectoryProperties, "action-2").Some?
    ensures StepAction(Initial, ModifyTwo, b, m).converted == ["action-2"]
    ensures StepAction(Initial, ModifyTwo, b, m).tests == [m(FileProperties, "action-2").value.test]
    ensures |StepAction(Initial, ModifyTwo, b, m).defs| == 1
  {
    ModifyTwoVerdict(b, m);
  }

  /** "create File" whose only link has a dangling idref but inline properties. */
  const CreateByIdref := Action(Some("action-3"), "create File", Some("Complete/Finish"),
    Some([AssociatedObject(Some("side-effect"), Some("object-404"), Some(FileProperties))]))

  /** A dangling idref does not reject the link: its inline properties are mapped instead. */
  lemma DanglingIdrefConverts(b: Bundle, m: Mapping)
    requires "object-404" !in b.objects
    requires m(FileProperties, "action-3").Some?
    ensures StepAction(Initial, CreateByIdref, b, m).converted == ["action-3"]
  {
    FirstTokenOfWord("create", "File");
    assert "create File" == "create" + [' '] + "File";
    assert FirstToken(CreateByIdref.name) == "create";
    assert "create" in SupportedActionTypes;
    assert "Complete/Finish" in AcceptedStatuses;
    assert SupportedAction(CreateByIdref) && StatusAccepted(CreateByIdref.status) && HasLinks(CreateByIdref);
    var links := CreateByIdref.associatedObjects.value;
    var link := links[0];
    assert link.associationType == Some("side-effect") && link.idref == Some("object-404");
    assert link.properties == Some(FileProperties);
    assert "side-effect" in AffectedRoles;
    assert RoleEligible(link.associationType);
    assert Dereference(link, b) == None;
    assert ResolvedProperties(link, None) == Some(FileProperties);
    assert ResolveMapping(link, "action-3", None, m) == m(FileProperties, "action-3");
    assert LinkMapping(link, "action-3", b, m) == m(FileProperties, "action-3");
    assert FirstMapped(links, "action-3", b, m) == m(FileProperties, "action-3") by {
      assert links[..0] == [];
    }
  }
}
