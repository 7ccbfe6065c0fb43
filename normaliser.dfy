/** The entity normaliser: derives the synchronisation fields `_id` and
    `_updated`, and carries the `latest_date_modified` watermark across the
    entities of one request. */
module Normaliser {
  import opened Common
  import opened Text
  import opened RequestArgs

  /** `v` ends in a timezone offset `+DD:DD`. */
  predicate EndsWithOffset(v: string)
  {
    var n := |v|;
    n >= 6 && v[n - 6] == '+' && IsDigit(v[n - 5]) && IsDigit(v[n - 4])
    && v[n - 3] == ':' && IsDigit(v[n - 2]) && IsDigit(v[n - 1])
  }

  /** What the source's search for `\+\d\d:\d\d$` finds: the anchor `$`
      also matches just before a final newline. */
  predicate MatchesOffsetPattern(v: string)
  {
    EndsWithOffset(v) || (|v| >= 1 && v[|v| - 1] == '\n' && EndsWithOffset(v[..|v| - 1]))
  }

  /** Offset removal as the source writes it: six characters off the end
      whenever the pattern is found. */
  function RemoveTzOffsetAsWritten(v: string): (r: string)
    ensures MatchesOffsetPattern(v) ==> |r| == |v| - 6 && r + v[|r|..] == v
    ensures !MatchesOffsetPattern(v) ==> r == v
  {
    if MatchesOffsetPattern(v) then v[..|v| - 6] else v
  }

  /** A value with a final newline after its offset loses the newline and
      the offset's last five characters, keeping a dangling `+`. */
  lemma TrailingNewlineKeepsPlus()
    ensures !EndsWithOffset("10:00+01:00\n")
    ensures RemoveTzOffsetAsWritten("10:00+01:00\n") == "10:00+"
  {
    var v := "10:00+01:00\n";
    assert v[..|v| - 1] == "10:00+01:00";
    assert EndsWithOffset(v[..|v| - 1]);
    assert v[..|v| - 6] == "10:00+";
  }

  /** Offset removal: exactly a final `+DD:DD` is dropped; any other value
      is kept. */
  function RemoveTzOffset(v: string): (r: string)
    ensures r == v <==> !EndsWithOffset(v)
    ensures EndsWithOffset(v) ==> |r| == |v| - 6 && r + v[|r|..] == v
  {
    if EndsWithOffset(v) then v[..|v| - 6] else v
  }

  /** The two removals differ only on values that end in a newline. */
  lemma OffsetRemovalsAgreeWithoutNewline(v: string)
    requires v == [] || v[|v| - 1] != '\n'
    ensures RemoveTzOffsetAsWritten(v) == RemoveTzOffset(v)
  {
  }

  /** The normaliser's view of the service arguments: the source fields for
      `_id` and `_updated` when they are given and non-empty. */
  datatype Config = Config(idSrc: Option<string>, updatedSrc: Option<string>)

  function TextParam(params: map<string, ArgValue>, key: string): Option<string>
  {
    if key in params && params[key].Text? && params[key].s != "" then Some(params[key].s) else None
  }

  function ConfigOf(params: map<string, ArgValue>): Config
  {
    Config(TextParam(params, "_id_src"), TextParam(params, "_updated_src"))
  }

  /** `str(entity.get(key))`: the field, or `"None"` when absent. */
  function Field(e: Entity, key: string): string
  {
    if key in e then e[key] else "None"
  }

  /** The entity after the `_id` step. */
  function WithId(e: Entity, cfg: Config): Entity
  {
    if cfg.idSrc.Some? then e["_id" := Field(e, cfg.idSrc.value)] else e
  }

  /** The entity has a non-empty `date_modified`. */
  predicate Dated(e: Entity)
  {
    "date_modified" in e && e["date_modified"] != ""
  }

  /** A normalised entity and the watermark after it. */
  datatype Normalised = Normalised(entity: Entity, latest: string)

  /** One entity through the normaliser, from watermark `latest`. */
  function Sesamify(e: Entity, cfg: Config, latest: string): (r: Normalised)
    ensures cfg.idSrc.Some? ==> "_id" in r.entity && r.entity["_id"] == Field(e, cfg.idSrc.value)
    ensures cfg.idSrc.None? ==> ("_id" in r.entity <==> "_id" in e) && ("_id" in e ==> r.entity["_id"] == e["_id"])
    ensures forall k :: k != "_id" && k != "_updated" ==>
      (k in r.entity <==> k in e) && (k in e ==> r.entity[k] == e[k])
    ensures cfg.updatedSrc.Some? ==>
      && "_updated" in r.entity
      && r.entity["_updated"] == RemoveTzOffset(Field(WithId(e, cfg), cfg.updatedSrc.value))
      && r.latest == latest
    ensures cfg.updatedSrc.None? && Dated(e) ==>
      var dm := e["date_modified"];
      && "_updated" in r.entity
      && r.entity["_updated"] == RemoveTzOffset(Max(latest, dm))
      && r.latest == (if Less(dm, latest) then latest else RemoveTzOffset(dm))
    ensures cfg.updatedSrc.None? && !Dated(e) ==> r == Normalised(WithId(e, cfg), latest)
  {
    var e1 := WithId(e, cfg);
    if cfg.updatedSrc.Some? then
      Normalised(e1["_updated" := RemoveTzOffset(Field(e1, cfg.updatedSrc.value))], latest)
    else if Dated(e1) then
      var dm := e1["date_modified"];
      if Less(dm, latest) then
        Normalised(e1["_updated" := RemoveTzOffset(latest)], latest)
      else
        var u := RemoveTzOffset(dm);
        Normalised(e1["_updated" := u], u)
    else
      Normalised(e1, latest)
  }

  /** Normalises `entity` in place, advancing the watermark in `svc`. */
  method SesamifyEntity(entity: Entity, svc: ServiceArgs) returns (r: Entity)
    modifies svc
    ensures Normalised(r, svc.latestDateModified) == Sesamify(entity, ConfigOf(svc.params), old(svc.latestDateModified))
  {
    r := entity;
    var idSrc := TextParam(svc.params, "_id_src");
    var updatedSrc := TextParam(svc.params, "_updated_src");
    if idSrc.Some? {
      r := r["_id" := Field(r, idSrc.value)];
    }
    if updatedSrc.Some? {
      r := r["_updated" := RemoveTzOffset(Field(r, updatedSrc.value))];
    } else if "date_modified" in r && r["date_modified"] != "" {
      if Less(r["date_modified"], svc.latestDateModified) {
        r := r["_updated" := RemoveTzOffset(svc.latestDateModified)];
      } else {
        r := r["_updated" := RemoveTzOffset(r["date_modified"])];
        svc.latestDateModified := r["_updated"];
      }
    }
  }

  /** A run of entities through the normaliser and the final watermark. */
  datatype Run = Run(entities: seq<Entity>, latest: string)

  /** The normalisation of one entity from a watermark. */
  type Step = (Entity, string) -> Normalised

  /** `sesamify` under configuration `cfg`, as a step. */
  function SesamifyStep(cfg: Config): Step
  {
    (e: Entity, latest: string) => Sesamify(e, cfg, latest)
  }

  /** A run of `es` through `step`, in order, each from the watermark the
      previous one left. */
  function NormaliseAll(step: Step, es: seq<Entity>, latest: string): (r: Run)
    ensures |r.entities| == |es|
    decreases |es|
  {
    if es == [] then Run([], latest)
    else
      var p := NormaliseAll(step, es[..|es| - 1], latest);
      var n := step(es[|es| - 1], p.latest);
      Run(p.entities + [n.entity], n.latest)
  }

  /** What `fetch_data` does to the entities it writes: each is passed
      through `sesamify` with the same service arguments, whose watermark
      is carried from one to the next. */
  function SesamifyAll(es: seq<Entity>, cfg: Config, latest: string): (r: Run)
    ensures |r.entities| == |es|
  {
    NormaliseAll(SesamifyStep(cfg), es, latest)
  }

  /** Running one entity is one step. */
  lemma NormaliseOne(step: Step, x: Entity, latest: string)
    ensures NormaliseAll(step, [x], latest) == Run([step(x, latest).entity], step(x, latest).latest)
  {
    assert [x][..0] == [];
  }

  /** Running two sequences one after the other is running their
      concatenation. */
  lemma {:induction false} NormaliseAllAppend(step: Step, xs: seq<Entity>, ys: seq<Entity>, latest: string)
    ensures var a := NormaliseAll(step, xs, latest);
      var b := NormaliseAll(step, ys, a.latest);
      NormaliseAll(step, xs + ys, latest) == Run(a.entities + b.entities, b.latest)
    decreases |ys|
  {
    if ys == [] {
      assert xs + ys == xs;
    } else {
      var ys' := ys[..|ys| - 1];
      NormaliseAllAppend(step, xs, ys', latest);
      assert (xs + ys)[..|xs + ys| - 1] == xs + ys';
      assert (xs + ys)[|xs + ys| - 1] == ys[|ys| - 1];
    }
  }

  predicate OffsetFree(v: string)
  {
    !EndsWithOffset(v)
  }

  predicate DatesOffsetFree(es: seq<Entity>)
  {
    forall i :: 0 <= i < |es| && Dated(es[i]) ==> OffsetFree(es[i]["date_modified"])
  }

  /** The running maximum of the dates seen, starting from `latest`. */
  function Watermark(es: seq<Entity>, latest: string): string
    decreases |es|
  {
    if es == [] then latest
    else
      var w := Watermark(es[..|es| - 1], latest);
      if Dated(es[|es| - 1]) then Max(w, es[|es| - 1]["date_modified"]) else w
  }

  lemma {:induction false} WatermarkOffsetFree(es: seq<Entity>, latest: string)
    requires OffsetFree(latest) && DatesOffsetFree(es)
    ensures OffsetFree(Watermark(es, latest))
    decreases |es|
  {
    if es != [] {
      WatermarkOffsetFree(es[..|es| - 1], latest);
    }
  }

  /** One entity without offsets: the watermark becomes the larger of the
      old watermark and the entity's date, and that is its `_updated`. */
  lemma SesamifyStepWithoutOffsets(x: Entity, cfg: Config, w: string)
    requires cfg.updatedSrc.None? && OffsetFree(w)
    requires Dated(x) ==> OffsetFree(x["date_modified"])
    ensures var n := Sesamify(x, cfg, w);
      && n.latest == (if Dated(x) then Max(w, x["date_modified"]) else w)
      && (Dated(x) ==> "_updated" in n.entity && n.entity["_updated"] == n.latest)
  {
    if Dated(x) {
      var dm := x["date_modified"];
      assert RemoveTzOffset(Max(w, dm)) == Max(w, dm);
      LessTotal(dm, w);
    }
  }

  /** Without offsets, the stored watermark is the running maximum, and every
      dated entity is stamped with the running maximum up to and including
      itself. */
  lemma {:induction false} WatermarkIsRunningMax(es: seq<Entity>, cfg: Config, latest: string)
    requires cfg.updatedSrc.None?
    requires OffsetFree(latest) && DatesOffsetFree(es)
    ensures SesamifyAll(es, cfg, latest).latest == Watermark(es, latest)
    ensures forall i :: 0 <= i < |es| && Dated(es[i]) ==>
      "_updated" in SesamifyAll(es, cfg, latest).entities[i] &&
      SesamifyAll(es, cfg, latest).entities[i]["_updated"] == Watermark(es[..i + 1], latest)
    decreases |es|
  {
    if es != [] {
      var p := es[..|es| - 1];
      var x := es[|es| - 1];
      assert forall i :: 0 <= i < |p| ==> p[i] == es[i];
      assert DatesOffsetFree(p);
      WatermarkIsRunningMax(p, cfg, latest);
      WatermarkOffsetFree(p, latest);
      var w := Watermark(p, latest);
      SesamifyStepWithoutOffsets(x, cfg, w);
      var out := SesamifyAll(es, cfg, latest).entities;
      var pout := SesamifyAll(p, cfg, latest).entities;
      var n := Sesamify(x, cfg, w);
      assert out == pout + [n.entity];
      assert es[..|es|] == es;
      assert Watermark(es, latest) == n.latest;
      StampsExtend(es, out, pout, latest);
      assert out[|p|] == n.entity;
    }
  }

  /** The stamps of the entities before the last carry over from the run
      without it. */
  lemma StampsExtend(es: seq<Entity>, out: seq<Entity>, pout: seq<Entity>, latest: string)
    requires es != [] && |out| == |es| && out[..|es| - 1] == pout
    requires forall i :: 0 <= i < |pout| && Dated(es[..|es| - 1][i]) ==>
      "_updated" in pout[i] && pout[i]["_updated"] == Watermark(es[..|es| - 1][..i + 1], latest)
    ensures forall i :: 0 <= i < |es| - 1 && Dated(es[i]) ==>
      "_updated" in out[i] && out[i]["_updated"] == Watermark(es[..i + 1], latest)
  {
    var p := es[..|es| - 1];
    forall i | 0 <= i < |es| - 1 && Dated(es[i])
      ensures "_updated" in out[i] && out[i]["_updated"] == Watermark(es[..i + 1], latest)
    {
      assert p[i] == es[i] && es[..i + 1] == p[..i + 1];
      assert out[i] == pout[i];
    }
  }

  /** The running maximum never goes down. */
  lemma {:induction false} WatermarkMonotone(es: seq<Entity>, latest: string, i: nat, j: nat)
    requires i <= j <= |es|
    ensures AtMost(Watermark(es[..i], latest), Watermark(es[..j], latest))
    decreases j
  {
    if i == j {
      LessIrreflexive(Watermark(es[..i], latest));
    } else {
      WatermarkMonotone(es, latest, i, j - 1);
      assert es[..j][..j - 1] == es[..j - 1];
      var w := Watermark(es[..j - 1], latest);
      assert AtMost(w, Watermark(es[..j], latest)) by {
        if !Dated(es[j - 1]) {
          LessIrreflexive(w);
        }
      }
      AtMostTransitive(Watermark(es[..i], latest), w, Watermark(es[..j], latest));
    }
  }

  /** For offset-free dates, the `_updated` values of dated entities never
      decrease along the output, and each is at least the entity's own date. */
  lemma UpdatedNonDecreasing(es: seq<Entity>, cfg: Config, latest: string, i: nat, j: nat)
    requires cfg.updatedSrc.None?
    requires OffsetFree(latest) && DatesOffsetFree(es)
    requires i < j < |es| && Dated(es[i]) && Dated(es[j])
    ensures var out := SesamifyAll(es, cfg, latest).entities;
      "_updated" in out[i] && "_updated" in out[j]
      && AtMost(out[i]["_updated"], out[j]["_updated"])
      && AtMost(es[i]["date_modified"], out[i]["_updated"])
  {
    WatermarkIsRunningMax(es, cfg, latest);
    WatermarkMonotone(es, latest, i + 1, j + 1);
    assert es[..i + 1][..i] == es[..i];
    assert es[..i + 1][i] == es[i];
  }
}
