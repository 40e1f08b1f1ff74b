/**
  `buildLanding` up to the point where the templates take over: aggregate
  the metadata, build the tag index and list the technologies in use.
 */
module Landing {
  import opened Wrappers
  import opened Strings
  import opened Learnings
  import opened Aggregate
  import opened TagIndex

  /** What the landing-page template is rendered against. */
  datatype TemplateVariables = TemplateVariables(
    technologies: seq<string>,
    mappings: Mappings,
    learnings: seq<Metadata>)

  /**
    Aggregates the lessons and builds the landing page's data. An error from
    `getMetadatas` is returned unchanged and nothing is built.
   */
  method BuildLanding(matched: Result<seq<FileEntry>, Error>, decode: Bytes -> Option<Metadata>)
    returns (r: Result<TemplateVariables, Error>)
    ensures r.Err? <==> matched.Err? || !AllLoad(matched.value, decode)
    ensures matched.Err? ==> r == Err(matched.error)
    ensures matched.Ok? && r.Err? ==> exists k :: FirstFailure(matched.value, decode, k, r.error)
    ensures r.Ok? ==> Rewritten(r.value.learnings, matched.value, decode)
    ensures r.Ok? ==> r.value.mappings.Keys == LoweredTags(r.value.learnings)
    ensures r.Ok? ==> forall t :: t in r.value.mappings ==>
              r.value.mappings[t] == Bucket(r.value.learnings, t) && r.value.mappings[t] != []
    ensures r.Ok? ==> forall t :: t in r.value.technologies <==> t in r.value.mappings
    ensures r.Ok? ==> TotalSize(r.value.mappings) == TotalTags(r.value.learnings)
    ensures r.Ok? ==> Distinct(r.value.technologies)
    ensures r.Ok? ==> |r.value.technologies| == |r.value.mappings|
    ensures matched == Ok([]) ==> r == Ok(TemplateVariables([], map[], []))
  {
    var metadatas := GetMetadatas(matched, decode);
    if metadatas.Err? {
      return Err(metadatas.error);
    }
    var mappings := BuildMappings(metadatas.value);
    var technologies := ListTechnologies(mappings);
    r := Ok(TemplateVariables(technologies, mappings, metadatas.value));
  }

  lemma GcpTags(tags: seq<string>)
    requires tags == ["GCP", "gcp"]
    ensures LoweredOf(tags) == {"gcp"}
    ensures TagCount(tags, "gcp") == 2
  {
    assert ToLower("GCP") == "gcp" by {
      var l := ToLower("GCP");
      assert l[0] == 'g' && l[1] == 'c' && l[2] == 'p';
    }
    assert ToLower("gcp") == "gcp" by {
      var l := ToLower("gcp");
      assert l[0] == 'g' && l[1] == 'c' && l[2] == 'p';
    }
    assert ToLower(tags[0]) == "gcp" && ToLower(tags[1]) == "gcp";
    assert tags[..1] == ["GCP"];
    assert tags[..1][..0] == [];
    assert TagCount(tags[..1], "gcp") == 1;
    assert tags[..|tags| - 1] == tags[..1];
  }

  /**
    Two lessons each tagged "GCP" and "gcp" give a single key "gcp", whose
    bucket holds each lesson twice, in lesson order.
   */
  lemma CaseCollidingTagsShareOneBucket(r1: Metadata, r2: Metadata)
    requires r1.tags == ["GCP", "gcp"] && r2.tags == ["GCP", "gcp"]
    ensures LoweredTags([r1, r2]) == {"gcp"}
    ensures Bucket([r1, r2], "gcp") == [r1, r1, r2, r2]
  {
    GcpTags(r1.tags);
    GcpTags(r2.tags);
    var ms := [r1, r2];
    assert ms[..1] == [r1];
    assert ms[..1][..0] == [];
    assert Bucket([r1], "gcp") == [r1, r1] by {
      assert Repeat(r1, 2) == [r1, r1];
    }
    assert Repeat(r2, 2) == [r2, r2];
    LoweredTagsSnoc(ms);
    LoweredTagsSnoc(ms[..1]);
  }

  /** With a single key in the index, the technology list is that key alone. */
  lemma SingleKeyTechnologies(technologies: seq<string>, m: Mappings, key: string)
    requires m.Keys == {key}
    requires forall t :: t in technologies <==> t in m
    requires |technologies| == |m|
    ensures technologies == [key]
  {
  }

  /** What the landing data of the scenario must be, given the contracts of the loops. */
  lemma CaseCollidingLanding(learnings: seq<Metadata>, mappings: Mappings, technologies: seq<string>, r1: Metadata, r2: Metadata)
    requires r1.tags == ["GCP", "gcp"] && r2.tags == ["GCP", "gcp"]
    requires learnings == [Rewrite(r1), Rewrite(r2)]
    requires mappings.Keys == LoweredTags(learnings)
    requires forall t :: t in mappings ==> mappings[t] == Bucket(learnings, t)
    requires forall t :: t in technologies <==> t in mappings
    requires |technologies| == |mappings|
    ensures technologies == ["gcp"]
    ensures mappings == map["gcp" := [Rewrite(r1), Rewrite(r1), Rewrite(r2), Rewrite(r2)]]
  {
    CaseCollidingTagsShareOneBucket(Rewrite(r1), Rewrite(r2));
    assert mappings["gcp"] == Bucket(learnings, "gcp");
    SingleKeyTechnologies(technologies, mappings, "gcp");
  }

  /** Two files that load to `r1` and `r2` give the learnings list `[Rewrite(r1), Rewrite(r2)]`. */
  lemma TwoFilesRewritten(learnings: seq<Metadata>, f1: FileEntry, f2: FileEntry, decode: Bytes -> Option<Metadata>, r1: Metadata, r2: Metadata)
    requires Load(f1, decode) == Ok(r1) && Load(f2, decode) == Ok(r2)
    requires Rewritten(learnings, [f1, f2], decode)
    ensures learnings == [Rewrite(r1), Rewrite(r2)]
  {
  }

  /**
    The whole scenario through `BuildLanding`: two files that decode to
    lessons both tagged "GCP" and "gcp".
   */
  method CaseCollidingScenario(f1: FileEntry, f2: FileEntry, decode: Bytes -> Option<Metadata>, r1: Metadata, r2: Metadata)
    returns (r: Result<TemplateVariables, Error>)
    requires r1.tags == ["GCP", "gcp"] && r2.tags == ["GCP", "gcp"]
    requires Load(f1, decode) == Ok(r1) && Load(f2, decode) == Ok(r2)
    ensures r.Ok?
    ensures r.value.technologies == ["gcp"]
    ensures r.value.mappings == map["gcp" := [Rewrite(r1), Rewrite(r1), Rewrite(r2), Rewrite(r2)]]
  {
    var files := [f1, f2];
    assert AllLoad(files, decode) by {
      assert Load(files[0], decode).Ok? && Load(files[1], decode).Ok?;
    }
    r := BuildLanding(Ok(files), decode);
    TwoFilesRewritten(r.value.learnings, f1, f2, decode, r1, r2);
    CaseCollidingLanding(r.value.learnings, r.value.mappings, r.value.technologies, r1, r2);
  }
}
