/** The `$lookup` pipeline builders of `Collection`
    (src/db/connection/mongoose.ts). A model is its collection name and its
    model name; the stages a caller adds are kept as they are. */
module ConnectionMongoose {
  import opened Common

  /** `typeof Model`, as far as the builders read it. */
  datatype Model = Model(collectionName: string, modelName: string)

  /** `RelationOption`: each field may be left out. */
  datatype RelationOption = RelationOption(local: Option<string>, foreign: Option<string>, selects: Option<seq<string>>)

  /** An aggregation stage. `Custom` is a stage built by the caller. */
  datatype Stage =
    | Lookup(from: string, foreignField: string, localField: string, asName: string, pipeline: seq<Stage>)
    | Project(projection: map<string, int>)
    | Unwind(path: string, preserveNullAndEmptyArrays: bool)
    | Custom(name: string)

  /** The projection that selects exactly the given fields; no selection gives `{}`. */
  function Projection(selects: Option<seq<string>>): (p: map<string, int>)
    ensures selects.None? ==> p == map[]
    ensures selects.Some? ==> p.Keys == set s | s in selects.value
    ensures forall k :: k in p ==> p[k] == 1
  {
    if selects.None? then map[] else map s | s in selects.value :: 1
  }

  /** `createProjection(selects)`: the loop setting each selected field to 1. */
  method CreateProjection(selects: Option<seq<string>>) returns (projection: map<string, int>)
    ensures projection == Projection(selects)
  {
    projection := map[];
    if selects.None? {
      return;
    }
    var names := selects.value;
    for n := 0 to |names|
      invariant projection == map s | s in names[..n] :: 1
    {
      projection := projection[names[n] := 1];
      assert names[..n + 1] == names[..n] + [names[n]];
    }
    assert names[..|names|] == names;
  }

  /** Repeated names collapse: the projection depends only on the set selected. */
  lemma ProjectionOfSameSet(a: seq<string>, b: seq<string>)
    requires (set s | s in a) == (set s | s in b)
    ensures Projection(Some(a)) == Projection(Some(b))
  {
    var pa, pb := Projection(Some(a)), Projection(Some(b));
    assert pa.Keys == pb.Keys;
    assert forall k :: k in pa ==> pa[k] == pb[k];
  }

  /** `option?.foreign ?? '_id'` */
  function ForeignField(option: Option<RelationOption>): string {
    if option.Some? && option.value.foreign.Some? then option.value.foreign.value else "_id"
  }

  /** `option?.local ?? model.modelName.toLowerCase() + 'Id'` */
  function LocalField(model: Model, option: Option<RelationOption>): string {
    if option.Some? && option.value.local.Some? then option.value.local.value else ToLower(model.modelName) + "Id"
  }

  function Selects(option: Option<RelationOption>): Option<seq<string>> {
    if option.Some? then option.value.selects else None
  }

  /** `hasMany(model, option)`: one `$lookup` into the model's collection, named
      after the collection, projecting the selected fields. */
  function HasMany(model: Model, option: Option<RelationOption>): (r: seq<Stage>)
    ensures |r| == 1 && r[0].Lookup?
    ensures r[0].from == model.collectionName && r[0].asName == model.collectionName
    ensures r[0].pipeline == [Project(Projection(Selects(option)))]
    ensures r[0].foreignField == ForeignField(option) && r[0].localField == LocalField(model, option)
  {
    [Lookup(model.collectionName, ForeignField(option), LocalField(model, option), model.collectionName,
            [Project(Projection(Selects(option)))])]
  }

  /** `hasManyWith(model, pipeline, option)`, with the stages `pipeline()` returns. */
  function HasManyWith(model: Model, pipeline: seq<Stage>, option: Option<RelationOption>): (r: seq<Stage>)
    ensures |r| == 1 && r[0].Lookup?
    ensures |r[0].pipeline| >= 1 && r[0].pipeline[1..] == pipeline
    ensures r[0].foreignField == ForeignField(option) && r[0].localField == LocalField(model, option)
  {
    [Lookup(model.collectionName, ForeignField(option), LocalField(model, option), model.collectionName,
            [Project(Projection(Selects(option)))] + pipeline)]
  }

  /** `hasOne(model, option)`: a `$lookup` named after the lower-cased model name,
      then an `$unwind` of that field that keeps documents without a match. */
  function HasOne(model: Model, option: Option<RelationOption>): (r: seq<Stage>)
    ensures |r| == 2 && r[0].Lookup? && r[1].Unwind?
    ensures r[0].from == model.collectionName && r[0].asName == ToLower(model.modelName)
    ensures r[1] == Unwind("$" + r[0].asName, true)
    ensures r[0].pipeline == [Project(Projection(Selects(option)))]
    ensures r[0].foreignField == ForeignField(option) && r[0].localField == LocalField(model, option)
  {
    var name := ToLower(model.modelName);
    [Lookup(model.collectionName, ForeignField(option), LocalField(model, option), name,
            [Project(Projection(Selects(option)))]),
     Unwind("$" + name, true)]
  }

  /** `hasOneWith(model, pipeline, option)` */
  function HasOneWith(model: Model, pipeline: seq<Stage>, option: Option<RelationOption>): (r: seq<Stage>)
    ensures |r| == 2 && r[0].Lookup? && r[1].Unwind?
    ensures |r[0].pipeline| >= 1 && r[0].pipeline[1..] == pipeline
    ensures r[0].foreignField == ForeignField(option) && r[0].localField == LocalField(model, option)
  {
    var name := ToLower(model.modelName);
    [Lookup(model.collectionName, ForeignField(option), LocalField(model, option), name,
            [Project(Projection(Selects(option)))] + pipeline),
     Unwind("$" + name, true)]
  }

  /** Each field is chosen on its own: a missing option or a missing foreign
      field gives `_id`, a missing option or a missing local field gives the
      lower-cased model name followed by `Id`; given fields are used as they are,
      the empty string included, since `??` replaces only missing values. The
      same holds for `hasMany` and `hasOne`. */
  lemma RelationDefaults(model: Model, option: Option<RelationOption>)
    ensures var many, one := HasMany(model, option)[0], HasOne(model, option)[0];
      (option.None? || option.value.foreign.None? ==> many.foreignField == "_id" && one.foreignField == "_id")
      && (option.Some? && option.value.foreign.Some? ==>
            many.foreignField == option.value.foreign.value && one.foreignField == option.value.foreign.value)
    ensures var many, one := HasMany(model, option)[0], HasOne(model, option)[0];
      (option.None? || option.value.local.None? ==>
         many.localField == ToLower(model.modelName) + "Id" && one.localField == ToLower(model.modelName) + "Id")
      && (option.Some? && option.value.local.Some? ==>
            many.localField == option.value.local.value && one.localField == option.value.local.value)
    ensures HasMany(model, Some(RelationOption(Some(""), Some(""), None)))[0].localField == ""
  {
  }

  /** The `With` builders are the plain ones with the caller's stages after the
      projection; with no stages they are the plain ones. */
  lemma WithExtendsPlain(model: Model, pipeline: seq<Stage>, option: Option<RelationOption>)
    ensures var plain, with := HasMany(model, option)[0], HasManyWith(model, pipeline, option)[0];
      with == plain.(pipeline := plain.pipeline + pipeline)
    ensures var plain, with := HasOne(model, option), HasOneWith(model, pipeline, option);
      with[0] == plain[0].(pipeline := plain[0].pipeline + pipeline) && with[1] == plain[1]
    ensures HasManyWith(model, [], option) == HasMany(model, option)
    ensures HasOneWith(model, [], option) == HasOne(model, option)
  {
    assert [Project(Projection(Selects(option)))] + [] == [Project(Projection(Selects(option)))];
  }

  /** Every builder's inner pipeline starts with the projection. */
  lemma ProjectFirst(model: Model, pipeline: seq<Stage>, option: Option<RelationOption>)
    ensures HasMany(model, option)[0].pipeline[0] == Project(Projection(Selects(option)))
    ensures HasManyWith(model, pipeline, option)[0].pipeline[0] == Project(Projection(Selects(option)))
    ensures HasOne(model, option)[0].pipeline[0] == Project(Projection(Selects(option)))
    ensures HasOneWith(model, pipeline, option)[0].pipeline[0] == Project(Projection(Selects(option)))
  {
  }
}
