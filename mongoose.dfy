/** The older copy of the `Collection` builders (src/db/mongoose.ts): only
    `createProjection`, `hasMany` and `hasOne`. Every member is proved to agree
    with its counterpart in ConnectionMongoose. */
module DbMongoose {
  import opened Common
  import opened ConnectionMongoose

  /** `createProjection(selects)` in src/db/mongoose.ts */
  method CreateProjection(selects: Option<seq<string>>) returns (projection: map<string, int>)
    ensures projection == Projection(selects)
    ensures selects.Some? ==> forall s :: s in selects.value ==> s in projection && projection[s] == 1
  {
    projection := map[];
    if selects.Some? {
      var names := selects.value;
      var n := 0;
      while n < |names|
        invariant n <= |names|
        invariant projection == map s | s in names[..n] :: 1
      {
        projection := projection[names[n] := 1];
        assert names[..n + 1] == names[..n] + [names[n]];
        n := n + 1;
      }
      assert names[..|names|] == names;
    }
  }

  /** `hasMany(model, option)` in src/db/mongoose.ts */
  function HasMany(model: Model, option: Option<RelationOption>): (r: seq<Stage>)
    ensures r == ConnectionMongoose.HasMany(model, option)
  {
    var foreign := if option.Some? && option.value.foreign.Some? then option.value.foreign.value else "_id";
    var local := if option.Some? && option.value.local.Some? then option.value.local.value else ToLower(model.modelName) + "Id";
    var selects := if option.Some? then option.value.selects else None;
    [Lookup(model.collectionName, foreign, local, model.collectionName, [Project(Projection(selects))])]
  }

  /** `hasOne(model, option)` in src/db/mongoose.ts */
  function HasOne(model: Model, option: Option<RelationOption>): (r: seq<Stage>)
    ensures r == ConnectionMongoose.HasOne(model, option)
  {
    var foreign := if option.Some? && option.value.foreign.Some? then option.value.foreign.value else "_id";
    var local := if option.Some? && option.value.local.Some? then option.value.local.value else ToLower(model.modelName) + "Id";
    var selects := if option.Some? then option.value.selects else None;
    var name := ToLower(model.modelName);
    [Lookup(model.collectionName, foreign, local, name, [Project(Projection(selects))]),
     Unwind("$" + name, true)]
  }
}
