/**
 Batch jobs, the labels they are rendered with (pkg/utils/jobs/jobs.go) and the filter that
 finds them again (pkg/utils/filters/jobs.go).
 */
module Jobs {
  import opened Base
  import opened Labels
  import Decimal

  datatype Stage = PlanStage | ApplyStage | DestroyStage

  function StageName(s: Stage): (r: string)
    ensures |r| > 0
  {
    match s
    case PlanStage => "plan"
    case ApplyStage => "apply"
    case DestroyStage => "destroy"
  }

  lemma StageNameInjective(s: Stage, t: Stage)
    requires StageName(s) == StageName(t)
    ensures s == t
  {
    assert |StageName(PlanStage)| == 4 && |StageName(ApplyStage)| == 5 && |StageName(DestroyStage)| == 7;
  }

  /**
   A batch Job as the controller reads it.  `metaGeneration` is the Job's own
   metadata.generation, not the configuration generation, which travels as a label; `complete`
   and `failed` say that a condition of that type with status True is present.
   */
  datatype Job = Job(
    id: nat,
    labels: LabelMap,
    metaGeneration: int,
    created: nat,
    complete: bool,
    failed: bool
  )

  predicate IsActive(j: Job) {
    !j.complete && !j.failed
  }

  /** What identifies a configuration to its jobs. */
  datatype Owner = Owner(name: string, namespace: string, uid: string)

  function OwnLabels(o: Owner, generation: nat, stage: Stage): (m: LabelMap) {
    map[
      GenerationKey := Decimal.Format(generation),
      NameKey := o.name,
      NamespaceKey := o.namespace,
      StageKey := StageName(stage),
      UidKey := o.uid
    ]
  }

  /** The labels of a rendered job: `additional`, overridden by the controller's own five. */
  function RenderLabels(o: Owner, generation: nat, stage: Stage, additional: LabelMap): (m: LabelMap) {
    Merge([additional, OwnLabels(o, generation, stage)])
  }

  datatype Filter = Filter(
    namespace: string,
    name: string,
    generation: string,
    uid: string,
    stage: string,
    labels: LabelMap
  )

  predicate Field(wanted: string, labels: LabelMap, k: Key) {
    wanted != "" ==> Get(labels, k) == wanted
  }

  predicate MatchesLabels(f: Filter, labels: LabelMap) {
    && labels != map[]
    && Field(f.namespace, labels, NamespaceKey)
    && Field(f.name, labels, NameKey)
    && Field(f.stage, labels, StageKey)
    && Field(f.generation, labels, GenerationKey)
    && Field(f.uid, labels, UidKey)
    && (forall k :: k in f.labels ==> Get(labels, k) == f.labels[k])
  }

  /** The matching jobs, in list order. */
  function Select(f: Filter, jobs: seq<Job>): (r: seq<Job>) {
    if jobs == [] then []
    else
      var init := Select(f, jobs[..|jobs| - 1]);
      var j := jobs[|jobs| - 1];
      if MatchesLabels(f, j.labels) then init + [j] else init
  }

  /** The youngest job of a list, the first of them where creation times tie. */
  function Youngest(jobs: seq<Job>): (r: Option<Job>) {
    if jobs == [] then None
    else
      var best := Youngest(jobs[..|jobs| - 1]);
      var j := jobs[|jobs| - 1];
      if best.None? || j.created > best.value.created then Some(j) else best
  }

  function Latest(f: Filter, jobs: seq<Job>): (r: Option<Job>) {
    Youngest(Select(f, jobs))
  }

  lemma {:induction false} SelectIsFilter(f: Filter, jobs: seq<Job>)
    ensures forall j :: j in Select(f, jobs) <==> j in jobs && MatchesLabels(f, j.labels)
  {
    if jobs != [] {
      var init := jobs[..|jobs| - 1];
      SelectIsFilter(f, init);
      assert jobs == init + [jobs[|jobs| - 1]];
    }
  }

  lemma {:induction false} YoungestIsMaximal(jobs: seq<Job>)
    ensures Youngest(jobs).None? <==> jobs == []
    ensures Youngest(jobs).Some? ==> Youngest(jobs).value in jobs
    ensures Youngest(jobs).Some? ==> forall j :: j in jobs ==> j.created <= Youngest(jobs).value.created
  {
    if jobs != [] {
      var init := jobs[..|jobs| - 1];
      YoungestIsMaximal(init);
      assert jobs == init + [jobs[|jobs| - 1]];
    }
  }

  /**
   Latest finds nothing exactly when no job matches; otherwise it finds a matching job that no
   matching job is younger than.
   */
  lemma LatestIsYoungestMatch(f: Filter, jobs: seq<Job>)
    ensures Latest(f, jobs).None? <==> forall j :: j in jobs ==> !MatchesLabels(f, j.labels)
    ensures Latest(f, jobs).Some? ==>
              var l := Latest(f, jobs).value;
              && l in jobs
              && MatchesLabels(f, l.labels)
              && forall j :: j in jobs && MatchesLabels(f, j.labels) ==> j.created <= l.created
  {
    var s := Select(f, jobs);
    SelectIsFilter(f, jobs);
    YoungestIsMaximal(s);
    if s != [] {
      assert s[0] in s;
    }
  }

  /** `additional` labels of a job in which the last merged map is `extra`. */
  function Additional(controller: LabelMap, provider: LabelMap, user: LabelMap, extra: LabelMap): (m: LabelMap) {
    Merge([controller, provider, user, extra])
  }

  /** The filter that looks for a stage's job: own five fields plus `extra`, empty values dropped. */
  function StageFilter(o: Owner, generation: nat, stage: Stage, extra: LabelMap): (f: Filter) {
    Filter(o.namespace, o.name, Decimal.Format(generation), o.uid, StageName(stage),
           map k | k in extra && extra[k] != "" :: extra[k])
  }

  /** Extra labels never use the controller's five own keys, nor the blank key. */
  predicate ExtraKeys(extra: LabelMap) {
    && GenerationKey !in extra && NameKey !in extra && NamespaceKey !in extra
    && StageKey !in extra && UidKey !in extra && OtherKey("") !in extra
  }

  lemma AdditionalAt(c: LabelMap, p: LabelMap, u: LabelMap, extra: LabelMap, k: Key)
    requires k in extra && k != OtherKey("")
    ensures k in Additional(c, p, u, extra) && Additional(c, p, u, extra)[k] == extra[k]
  {
    var list := [c, p, u, extra];
    assert Merge(list) == Merge(list[..3]) + Clean(list[3]);
  }

  lemma MergePairAt(a: LabelMap, b: LabelMap, k: Key)
    requires k != OtherKey("")
    ensures Get(Merge([a, b]), k) == if k in b then b[k] else Get(a, k)
    ensures k in b ==> k in Merge([a, b])
  {
    MergePair(a, b);
  }

  lemma OwnLabelsWin(o: Owner, generation: nat, stage: Stage, a: LabelMap)
    ensures var l := RenderLabels(o, generation, stage, a);
            && l != map[]
            && Get(l, GenerationKey) == Decimal.Format(generation)
            && Get(l, NameKey) == o.name
            && Get(l, NamespaceKey) == o.namespace
            && Get(l, StageKey) == StageName(stage)
            && Get(l, UidKey) == o.uid
  {
    hide Merge, StageName, Decimal.Format;
    var own := OwnLabels(o, generation, stage);
    MergePairAt(a, own, GenerationKey);
    MergePairAt(a, own, NameKey);
    MergePairAt(a, own, NamespaceKey);
    MergePairAt(a, own, StageKey);
    MergePairAt(a, own, UidKey);
  }

  lemma ExtraLabelSurvives(o: Owner, generation: nat, stage: Stage,
                           c: LabelMap, p: LabelMap, u: LabelMap, extra: LabelMap, k: Key)
    requires ExtraKeys(extra) && k in extra
    ensures Get(RenderLabels(o, generation, stage, Additional(c, p, u, extra)), k) == extra[k]
  {
    hide Merge, Additional, StageName, Decimal.Format;
    AdditionalAt(c, p, u, extra, k);
    MergePairAt(Additional(c, p, u, extra), OwnLabels(o, generation, stage), k);
  }

  /** The labels of a rendered job, read key by key. */
  lemma RenderedLabels(o: Owner, generation: nat, stage: Stage,
                       c: LabelMap, p: LabelMap, u: LabelMap, extra: LabelMap)
    requires ExtraKeys(extra)
    ensures var l := RenderLabels(o, generation, stage, Additional(c, p, u, extra));
            && l != map[]
            && Get(l, GenerationKey) == Decimal.Format(generation)
            && Get(l, NameKey) == o.name
            && Get(l, NamespaceKey) == o.namespace
            && Get(l, StageKey) == StageName(stage)
            && Get(l, UidKey) == o.uid
            && forall k :: k in extra ==> Get(l, k) == extra[k]
  {
    OwnLabelsWin(o, generation, stage, Additional(c, p, u, extra));
    forall k | k in extra
      ensures Get(RenderLabels(o, generation, stage, Additional(c, p, u, extra)), k) == extra[k]
    {
      ExtraLabelSurvives(o, generation, stage, c, p, u, extra, k);
    }
  }

  /**
   Self-recognition: whatever labels the controller flags, the provider and the user supply, the
   job rendered for a stage is matched by the filter built for that stage from the same owner,
   generation and extra labels.
   */
  lemma RenderedJobIsFound(o: Owner, generation: nat, stage: Stage,
                           c: LabelMap, p: LabelMap, u: LabelMap, extra: LabelMap)
    requires ExtraKeys(extra)
    ensures MatchesLabels(StageFilter(o, generation, stage, extra),
                          RenderLabels(o, generation, stage, Additional(c, p, u, extra)))
  {
    RenderedLabels(o, generation, stage, c, p, u, extra);
  }

  /** Where the source of a label lies: the job's own five keys, else extra, else user, else provider, else controller labels. */
  lemma LabelOrder(o: Owner, generation: nat, stage: Stage, c: LabelMap, p: LabelMap, u: LabelMap, extra: LabelMap, k: Key)
    requires k != OtherKey("")
    ensures Get(RenderLabels(o, generation, stage, Additional(c, p, u, extra)), k) ==
            if k in OwnLabels(o, generation, stage) then OwnLabels(o, generation, stage)[k]
            else if k in extra then extra[k]
            else if k in u then u[k]
            else if k in p then p[k]
            else Get(c, k)
  {
    hide Merge, StageName, Decimal.Format;
    var own := OwnLabels(o, generation, stage);
    MergePairAt(Additional(c, p, u, extra), own, k);
    AdditionalOrder(c, p, u, extra, k);
  }

  lemma AdditionalOrder(c: LabelMap, p: LabelMap, u: LabelMap, extra: LabelMap, k: Key)
    requires k != OtherKey("")
    ensures Get(Additional(c, p, u, extra), k) ==
            if k in extra then extra[k] else if k in u then u[k] else if k in p then p[k] else Get(c, k)
  {
    hide Merge;
    var list := [c, p, u, extra];
    MergeIsLastWriter(list, k);
    assert list[0] == c && list[1] == p && list[2] == u && list[3] == extra;
    assert forall m: LabelMap :: k in Clean(m) <==> k in m;
  }

  /** The filter of the source, filled in by its With* methods. */
  class JobFilter {
    const list: seq<Job>
    var namespace: string
    var name: string
    var generation: string
    var uid: string
    var stage: string
    var labels: LabelMap

    function View(): (f: Filter)
      reads this
    {
      Filter(namespace, name, generation, uid, stage, labels)
    }

    constructor (jobs: seq<Job>)
      ensures list == jobs && View() == Filter("", "", "", "", "", map[])
    {
      list := jobs;
      namespace, name, generation, uid, stage, labels := "", "", "", "", "", map[];
    }

    method WithLabel(key: Key, value: string)
      modifies this`labels
      ensures labels == if value == "" then old(labels) else old(labels)[key := value]
    {
      if value == "" {
        return;
      }
      labels := labels[key := value];
    }

    method WithOwner(o: Owner)
      modifies this`namespace, this`name, this`uid
      ensures View() == old(View()).(namespace := o.namespace, name := o.name, uid := o.uid)
    {
      namespace := o.namespace;
      name := o.name;
      uid := o.uid;
    }

    method WithStage(s: Stage)
      modifies this`stage
      ensures View() == old(View()).(stage := StageName(s))
    {
      stage := StageName(s);
    }

    method WithGeneration(g: nat)
      modifies this`generation
      ensures View() == old(View()).(generation := Decimal.Format(g))
    {
      generation := Decimal.Format(g);
    }

    method List() returns (items: seq<Job>, found: bool)
      ensures items == Select(View(), list)
      ensures found <==> items != []
      ensures found <==> exists j :: j in list && MatchesLabels(View(), j.labels)
    {
      items := [];
      for i := 0 to |list|
        invariant items == Select(View(), list[..i])
      {
        assert list[..i + 1][..i] == list[..i];
        var l := list[i].labels;
        if l == map[] {
          continue;
        }
        var missing := (namespace != "" && Get(l, NamespaceKey) != namespace)
                    || (name != "" && Get(l, NameKey) != name)
                    || (stage != "" && Get(l, StageKey) != stage)
                    || (generation != "" && Get(l, GenerationKey) != generation)
                    || (uid != "" && Get(l, UidKey) != uid)
                    || exists k :: k in labels && Get(l, k) != labels[k];
        if !missing {
          items := items + [list[i]];
        }
      }
      assert list[..|list|] == list;
      SelectIsFilter(View(), list);
      found := |items| > 0;
      if found {
        assert items[0] in items;
      }
    }

    method LatestJob() returns (job: Option<Job>)
      ensures job == Latest(View(), list)
    {
      var items, found := List();
      if !found {
        return None;
      }
      var latest := items[0];
      assert items[..1][..0] == [];
      assert items[..1] == [items[0]];
      for i := 0 to |items|
        invariant Some(latest) == Youngest(items[..if i == 0 then 1 else i])
      {
        assert i > 0 ==> items[..i + 1][..i] == items[..i];
        if items[i].created > latest.created {
          latest := items[i];
        }
      }
      assert items[..|items|] == items;
      job := Some(latest);
    }
  }
}
