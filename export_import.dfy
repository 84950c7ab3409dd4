/** The `export_import_data` management command: `export` writes the
    selected models' records (optionally only one user's) as serialized
    lists, `import` reads such lists back and saves them in dependency
    order inside one transaction. Serialized records are reduced to their
    primary key, their owner column if they have one, and an opaque rest;
    building a model instance from a record and saving it are parameters
    saying whether each succeeds. */
module ExportImport {
  import opened Support
  import opened Models

  // ---------------------------------------------------------------------
  // Dispatch
  // ---------------------------------------------------------------------

  datatype Dispatch = RunExport | RunImport | InvalidCommand

  /** `handle`: the sub-command picks the action; anything else is reported. */
  function DispatchOf(command: Option<string>): (r: Dispatch)
    ensures r == RunExport <==> command == Some("export")
    ensures r == RunImport <==> command == Some("import")
  {
    if command == Some("export") then RunExport
    else if command == Some("import") then RunImport
    else InvalidCommand
  }

  // ---------------------------------------------------------------------
  // Records and users
  // ---------------------------------------------------------------------

  /** One serialized record: its primary key, its `owner` field when the
      record has one, and the rest of its fields. */
  datatype Record = Record(pk: Id, owner: Option<Id>, rest: string)

  /** The model keys of the command, in their declared order. */
  const ModelKeys: seq<string> := ["vehicle", "driver", "customer", "deliverybatch", "delivery", "route", "locationupdate"]

  /** The models whose records carry an owner. */
  predicate HasOwner(model: string)
  {
    model == "vehicle" || model == "driver" || model == "customer" || model == "deliverybatch"
  }

  /** The user a username names. */
  function UserNamed(users: seq<User>, name: string): (r: Option<User>)
    ensures r.Some? ==> r.value in users && r.value.username == name
    ensures r.None? ==> forall u :: u in users ==> u.username != name
  {
    if users == [] then None
    else if users[0].username == name then Some(users[0])
    else UserNamed(users[1..], name)
  }

  /** The user with primary key `id`. */
  function UserWithId(users: seq<User>, id: Id): (r: Option<User>)
    ensures r.Some? <==> exists u :: u in users && u.id == id
  {
    if users == [] then None
    else if users[0].id == id then Some(users[0])
    else UserWithId(users[1..], id)
  }

  /** An option given as an empty string counts as not given. */
  function Given(o: Option<string>): bool { o.Some? && o.value != "" }

  // ---------------------------------------------------------------------
  // Export
  // ---------------------------------------------------------------------

  /** The names listed in `--models`: split on commas, stripped and lower-cased. */
  function ParseModels(s: string): set<string>
  {
    set m | m in Split(s, ',') :: Lower(Strip(m))
  }

  function InSet(names: set<string>): string -> bool { (k: string) => k in names }

  /** The models to export, in declared order. Unknown names are ignored. */
  function SelectModels(models: Option<string>): (r: seq<string>)
    ensures forall k :: k in r <==> k in ModelKeys && (!Given(models) || k in ParseModels(models.value))
    ensures |r| <= |ModelKeys|
  {
    if Given(models) then Filter(InSet(ParseModels(models.value)), ModelKeys) else ModelKeys
  }

  /** A run of lower-case ASCII letters. */
  predicate LowerWord(s: string)
  {
    s != [] && forall k :: 0 <= k < |s| ==> 'a' <= s[k] <= 'z'
  }

  /** Normalising a lower-case word changes nothing. */
  lemma LowerWordNormal(s: string)
    requires LowerWord(s)
    ensures Lower(Strip(s)) == s && ',' !in s
  {
    StripUnchanged(s);
    LowerUnchanged(s);
    assert forall k :: 0 <= k < |s| ==> s[k] != ',';
  }

  /** The model keys are already stripped and lower-case, and contain no comma. */
  lemma ModelKeysNormal()
    ensures forall k :: k in ModelKeys ==> Lower(Strip(k)) == k && ',' !in k
  {
    forall k | k in ModelKeys ensures Lower(Strip(k)) == k && ',' !in k {
      assert LowerWord(k);
      LowerWordNormal(k);
    }
  }

  /** Listing model keys with commas selects exactly those models. */
  lemma SelectModelsRoundTrip(ks: seq<string>)
    requires ks != [] && forall k :: k in ks ==> k in ModelKeys
    ensures forall k :: k in SelectModels(Some(Join(ks, ','))) <==> k in ks
  {
    ParseJoined(ks);
    assert ks[0] in ModelKeys && "" !in ModelKeys;
    JoinNotEmpty(ks);
  }

  lemma ParseJoined(ks: seq<string>)
    requires ks != [] && forall k :: k in ks ==> k in ModelKeys
    ensures ParseModels(Join(ks, ',')) == set m | m in ks
  {
    ModelKeysNormal();
    SplitJoin(ks, ',');
  }

  lemma JoinNotEmpty(ks: seq<string>)
    requires ks != [] && ks[0] != ""
    ensures Join(ks, ',') != ""
  {
    if |ks| > 1 {
      assert Join(ks, ',') == ks[0] + [','] + Join(ks[1..], ',');
    }
  }

  function OwnedBy(user: Id): Record -> bool { (r: Record) => r.owner == Some(user) }

  datatype Section = Section(model: string, records: seq<Record>)

  datatype ExportOutcome = ExportUserNotFound | Exported(sections: seq<Section>)

  function RowsOf(db: map<string, seq<Record>>, model: string): seq<Record>
  {
    if model in db then db[model] else []
  }

  /** The records a section holds: all of the model's records, or only the
      given user's when a user is named and the model has an owner. */
  function SectionFor(db: map<string, seq<Record>>, model: string, user: Option<User>): Section
  {
    if user.Some? && HasOwner(model) then Section(model, Filter(OwnedBy(user.value.id), RowsOf(db, model)))
    else Section(model, RowsOf(db, model))
  }

  /** `export_data` up to the file write: the collected sections, or the
      error for an unknown `--user`. */
  function ExportData(db: map<string, seq<Record>>, users: seq<User>, user: Option<string>,
                      models: Option<string>): (r: ExportOutcome)
    ensures r.ExportUserNotFound? <==> Given(user) && UserNamed(users, user.value).None?
    ensures r.Exported? ==>
              && |r.sections| == |SelectModels(models)|
              && forall k :: 0 <= k < |r.sections| ==>
                   && r.sections[k].model == SelectModels(models)[k]
                   && forall x :: x in r.sections[k].records <==>
                        x in RowsOf(db, r.sections[k].model)
                        && (Given(user) && HasOwner(r.sections[k].model)
                            ==> x.owner == Some(UserNamed(users, user.value).value.id))
  {
    if Given(user) && UserNamed(users, user.value).None? then ExportUserNotFound
    else
      var who := if Given(user) then UserNamed(users, user.value) else None;
      var selected := SelectModels(models);
      Exported(seq(|selected|, k requires 0 <= k < |selected| => SectionFor(db, selected[k], who)))
  }

  // ---------------------------------------------------------------------
  // Import
  // ---------------------------------------------------------------------

  /** The order in which `import` visits the sections. */
  const ImportOrder: seq<string> := ["user", "vehicle", "driver", "customer", "deliverybatch", "route", "delivery", "locationupdate"]

  /** A record saved under a model. */
  datatype Saved = Saved(model: string, record: Record)

  function SavedKey(s: Saved): (string, Id) { (s.model, s.record.pk) }

  /** The import's working state: the primary keys saved per model, the
      owners already looked up, the records saved so far, and whether an
      exception escaped the processing loop. */
  datatype Progress = Progress(created: map<string, set<Id>>, known: set<Id>, saved: seq<Saved>, failed: bool)

  /** What the import is run with. `target` is the user named by `--user`;
      `build` and `save` say whether building the instance and saving it
      succeed. */
  datatype ImportContext = ImportContext(target: Option<User>, users: seq<User>, dryRun: bool,
                                         build: (string, Record) -> bool, save: (string, Record) -> bool)

  const Initial: Progress := Progress(map[], {}, [], false)

  /** The owner cannot be resolved: no target user, not looked up before,
      and no such user. Such a record is skipped. */
  predicate OwnerMissing(p: Progress, r: Record, ctx: ImportContext)
  {
    r.owner.Some? && ctx.target.None? && r.owner.value !in p.known && UserWithId(ctx.users, r.owner.value).None?
  }

  /** The record as it is built: with a target user, its owner is replaced. */
  function Remapped(r: Record, ctx: ImportContext): Record
  {
    if r.owner.Some? && ctx.target.Some? then r.(owner := Some(ctx.target.value.id)) else r
  }

  /** Processing one record of `model`. */
  function Step(p: Progress, model: string, r: Record, ctx: ImportContext): (q: Progress)
    requires model in p.created
    ensures q.created.Keys == p.created.Keys
  {
    if p.failed || r.pk in p.created[model] || OwnerMissing(p, r, ctx) then p
    else
      var known := if r.owner.Some? && ctx.target.None? then p.known + {r.owner.value} else p.known;
      var rec := Remapped(r, ctx);
      if !ctx.build(model, rec) then p.(known := known, failed := true)
      else if ctx.dryRun || !ctx.save(model, rec) then p.(known := known)
      else p.(known := known, created := p.created[model := p.created[model] + {r.pk}],
              saved := p.saved + [Saved(model, rec)])
  }

  function RunRecords(p: Progress, model: string, recs: seq<Record>, ctx: ImportContext): (q: Progress)
    requires model in p.created
    ensures q.created.Keys == p.created.Keys
  {
    if recs == [] then p
    else Step(RunRecords(p, model, recs[..|recs| - 1], ctx), model, recs[|recs| - 1], ctx)
  }

  /** Start a model's section: its set of saved keys exists from then on. */
  function Enter(p: Progress, model: string): (q: Progress)
    ensures model in q.created
  {
    if model in p.created then p else p.(created := p.created[model := {}])
  }

  predicate Imports(data: map<string, seq<Record>>, model: string)
  {
    model in data && model in ModelKeys
  }

  function RunModels(p: Progress, names: seq<string>, data: map<string, seq<Record>>, ctx: ImportContext): Progress
  {
    if names == [] then p
    else
      var q := RunModels(p, names[..|names| - 1], data, ctx);
      var model := names[|names| - 1];
      if Imports(data, model) then RunRecords(Enter(q, model), model, data[model], ctx) else q
  }

  datatype FileContents = Missing | Unreadable | Parsed(data: map<string, seq<Record>>)

  /** How `import_data` ends. `RolledBackThenRaised`: an exception left the
      atomic block, which rolled the transaction back; the handler then asks
      for a rollback outside any atomic block, which itself raises, so the
      command ends with that error instead of its "rolled back" message. */
  datatype ImportOutcome = FileNotFound | ReadError | TargetNotFound | RolledBackThenRaised | DryRunComplete | Imported

  function ContextFor(users: seq<User>, target: Option<string>, dryRun: bool,
                      build: (string, Record) -> bool, save: (string, Record) -> bool): ImportContext
  {
    ImportContext(if Given(target) then UserNamed(users, target.value) else None, users, dryRun, build, save)
  }

  /** The inner loop of `import_data`: the records of one section, in
      file order, each processed as `Step` says. */
  method ImportRecords(model: string, recs: seq<Record>, ctx: ImportContext,
                       created0: map<string, set<Id>>, known0: set<Id>, saved0: seq<Saved>, failed0: bool)
    returns (created: map<string, set<Id>>, known: set<Id>, saved: seq<Saved>, failed: bool)
    requires model in created0
    ensures Progress(created, known, saved, failed) == RunRecords(Progress(created0, known0, saved0, failed0), model, recs, ctx)
  {
    created, known, saved, failed := created0, known0, saved0, failed0;
    ghost var start := Progress(created, known, saved, failed);
    for j := 0 to |recs|
      invariant model in created
      invariant Progress(created, known, saved, failed) == RunRecords(start, model, recs[..j], ctx)
    {
      var r := recs[j];
      assert recs[..j + 1][..j] == recs[..j];
      // an exception that escaped ends the processing: nothing after it takes effect
      if !failed && r.pk !in created[model] && !OwnerMissing(Progress(created, known, saved, failed), r, ctx) {
        if r.owner.Some? && ctx.target.None? {
          known := known + {r.owner.value};
        }
        var rec := Remapped(r, ctx);
        if !ctx.build(model, rec) {
          failed := true;
        } else if !ctx.dryRun && ctx.save(model, rec) {
          created := created[model := created[model] + {r.pk}];
          saved := saved + [Saved(model, rec)];
        }
      }
    }
    assert recs[..|recs|] == recs;
  }

  /** `import_data`. `committed` is what the transaction leaves in the
      store: the saved records, or nothing when the run is a dry run or an
      exception rolled it back. */
  method ImportData(file: FileContents, users: seq<User>, target: Option<string>, dryRun: bool,
                    build: (string, Record) -> bool, save: (string, Record) -> bool)
    returns (outcome: ImportOutcome, committed: seq<Saved>)
    ensures outcome == FileNotFound <==> file == Missing
    ensures outcome == ReadError <==> file == Unreadable
    ensures outcome == TargetNotFound <==> file.Parsed? && Given(target) && UserNamed(users, target.value).None?
    ensures outcome.RolledBackThenRaised? || outcome.DryRunComplete? || outcome.Imported? ==>
              var p := RunModels(Initial, ImportOrder, file.data, ContextFor(users, target, dryRun, build, save));
              && (outcome == RolledBackThenRaised <==> p.failed)
              && (outcome == DryRunComplete <==> !p.failed && dryRun)
              && committed == (if outcome == Imported then p.saved else [])
    ensures !(outcome.RolledBackThenRaised? || outcome.DryRunComplete? || outcome.Imported?) ==> committed == []
  {
    committed := [];
    if file == Missing {
      return FileNotFound, [];
    }
    if file == Unreadable {
      return ReadError, [];
    }
    var data := file.data;
    var who: Option<User> := None;
    if Given(target) {
      who := UserNamed(users, target.value);
      if who.None? {
        return TargetNotFound, [];
      }
    }
    var ctx := ImportContext(who, users, dryRun, build, save);
    var created: map<string, set<Id>> := map[];
    var known: set<Id> := {};
    var saved: seq<Saved> := [];
    var failed := false;
    for i := 0 to |ImportOrder|
      invariant Progress(created, known, saved, failed) == RunModels(Initial, ImportOrder[..i], data, ctx)
    {
      var model := ImportOrder[i];
      assert ImportOrder[..i + 1][..i] == ImportOrder[..i];
      if Imports(data, model) {
        if model !in created {
          created := created[model := {}];
        }
        created, known, saved, failed := ImportRecords(model, data[model], ctx, created, known, saved, failed);
      }
    }
    assert ImportOrder[..|ImportOrder|] == ImportOrder;
    if failed {
      outcome := RolledBackThenRaised;
    } else if dryRun {
      outcome := DryRunComplete;
    } else {
      outcome := Imported;
      committed := saved;
    }
  }

  // ---------------------------------------------------------------------
  // What an import run guarantees
  // ---------------------------------------------------------------------

  /** The saved record came out of the data under its model, with at most
      its owner changed. */
  ghost predicate FromData(s: Saved, data: map<string, seq<Record>>)
  {
    s.model in data && exists r :: r in data[s.model] && r.pk == s.record.pk && r.rest == s.record.rest
  }

  /** The owner a saved record carries is the target user, or, with no
      target, an existing user. */
  ghost predicate OwnerResolved(s: Saved, ctx: ImportContext)
  {
    s.record.owner.Some? ==>
      && (ctx.target.Some? ==> s.record.owner.value == ctx.target.value.id)
      && (ctx.target.None? ==> exists u :: u in ctx.users && u.id == s.record.owner.value)
  }

  /** The facts a run keeps at every step. */
  ghost predicate Good(p: Progress, data: map<string, seq<Record>>, ctx: ImportContext)
  {
    && (forall k :: 0 <= k < |p.saved| ==>
          p.saved[k].model in p.created && p.saved[k].record.pk in p.created[p.saved[k].model])
    && DistinctBy(SavedKey, p.saved)
    && (forall k :: 0 <= k < |p.saved| ==> p.saved[k].model in ModelKeys && FromData(p.saved[k], data))
    && (forall k :: 0 <= k < |p.saved| ==> OwnerResolved(p.saved[k], ctx))
    && (forall x :: x in p.known ==> exists u :: u in ctx.users && u.id == x)
    && (ctx.dryRun ==> p.saved == [] && forall m :: m in p.created ==> p.created[m] == {})
  }

  lemma StepGood(p: Progress, model: string, r: Record, data: map<string, seq<Record>>, ctx: ImportContext)
    requires Good(p, data, ctx) && model in p.created && Imports(data, model) && r in data[model]
    ensures Good(Step(p, model, r, ctx), data, ctx)
  {
    var q := Step(p, model, r, ctx);
    if |q.saved| > |p.saved| {
      var rec := Remapped(r, ctx);
      assert q.saved == p.saved + [Saved(model, rec)];
      assert FromData(Saved(model, rec), data);
      forall k | 0 <= k < |p.saved| ensures SavedKey(p.saved[k]) != SavedKey(Saved(model, rec)) {
        assert p.saved[k].record.pk in p.created[p.saved[k].model];
      }
      forall i, j | 0 <= i < j < |q.saved| ensures SavedKey(q.saved[i]) != SavedKey(q.saved[j]) {
        if j < |p.saved| {
          assert q.saved[i] == p.saved[i] && q.saved[j] == p.saved[j];
        }
      }
      if r.owner.Some? && ctx.target.None? {
        if r.owner.value in p.known {
        } else {
          assert UserWithId(ctx.users, r.owner.value).Some?;
        }
      }
    } else if r.owner.Some? && ctx.target.None? && !p.failed && r.pk !in p.created[model] && !OwnerMissing(p, r, ctx) {
      assert r.owner.value in p.known || UserWithId(ctx.users, r.owner.value).Some?;
    }
  }

  lemma EnterGood(p: Progress, model: string, data: map<string, seq<Record>>, ctx: ImportContext)
    requires Good(p, data, ctx)
    ensures Good(Enter(p, model), data, ctx)
  {
    if model !in p.created {
      var q := Enter(p, model);
      forall k | 0 <= k < |p.saved|
        ensures p.saved[k].model in q.created && p.saved[k].record.pk in q.created[p.saved[k].model]
      {
        assert p.saved[k].model != model;
      }
    }
  }

  lemma {:induction false} RunRecordsGood(p: Progress, model: string, recs: seq<Record>,
                                         data: map<string, seq<Record>>, ctx: ImportContext)
    requires Good(p, data, ctx) && model in p.created && Imports(data, model)
    requires forall r :: r in recs ==> r in data[model]
    ensures Good(RunRecords(p, model, recs, ctx), data, ctx)
  {
    if recs != [] {
      var init := recs[..|recs| - 1];
      RunRecordsGood(p, model, init, data, ctx);
      StepGood(RunRecords(p, model, init, ctx), model, recs[|recs| - 1], data, ctx);
    }
  }

  lemma {:induction false} RunModelsGood(names: seq<string>, data: map<string, seq<Record>>, ctx: ImportContext)
    ensures Good(RunModels(Initial, names, data, ctx), data, ctx)
  {
    if names != [] {
      var q := RunModels(Initial, names[..|names| - 1], data, ctx);
      var model := names[|names| - 1];
      RunModelsGood(names[..|names| - 1], data, ctx);
      if Imports(data, model) {
        EnterGood(q, model, data, ctx);
        RunRecordsGood(Enter(q, model), model, data[model], data, ctx);
      }
    }
  }

  /** Every key recorded as created belongs to a record whose save succeeded. */
  ghost predicate CreatedSaved(p: Progress)
  {
    forall m, x :: m in p.created && x in p.created[m] ==>
      exists k :: 0 <= k < |p.saved| && SavedKey(p.saved[k]) == (m, x)
  }

  lemma StepCreatedSaved(p: Progress, model: string, r: Record, ctx: ImportContext)
    requires model in p.created && CreatedSaved(p)
    ensures CreatedSaved(Step(p, model, r, ctx))
  {
    var q := Step(p, model, r, ctx);
    assert p.saved <= q.saved;
    forall m, x | m in q.created && x in q.created[m]
      ensures exists k :: 0 <= k < |q.saved| && SavedKey(q.saved[k]) == (m, x)
    {
      if m in p.created && x in p.created[m] {
        var k :| 0 <= k < |p.saved| && SavedKey(p.saved[k]) == (m, x);
        assert q.saved[k] == p.saved[k];
      } else {
        assert q.saved == p.saved + [Saved(model, Remapped(r, ctx))];
        assert SavedKey(q.saved[|p.saved|]) == (m, x);
      }
    }
  }

  lemma {:induction false} RunRecordsCreatedSaved(p: Progress, model: string, recs: seq<Record>, ctx: ImportContext)
    requires model in p.created && CreatedSaved(p)
    ensures CreatedSaved(RunRecords(p, model, recs, ctx))
  {
    if recs != [] {
      RunRecordsCreatedSaved(p, model, recs[..|recs| - 1], ctx);
      StepCreatedSaved(RunRecords(p, model, recs[..|recs| - 1], ctx), model, recs[|recs| - 1], ctx);
    }
  }

  lemma {:induction false} RunModelsCreatedSaved(names: seq<string>, data: map<string, seq<Record>>, ctx: ImportContext)
    ensures CreatedSaved(RunModels(Initial, names, data, ctx))
  {
    if names != [] {
      var q := RunModels(Initial, names[..|names| - 1], data, ctx);
      var model := names[|names| - 1];
      RunModelsCreatedSaved(names[..|names| - 1], data, ctx);
      if Imports(data, model) {
        assert CreatedSaved(Enter(q, model));
        RunRecordsCreatedSaved(Enter(q, model), model, data[model], ctx);
      }
    }
  }

  /** What an import run saves: every record at most once per model, only
      records of the known models taken from the data, with owners that are
      the target user or an existing user; and a dry run saves nothing. A
      key is recorded as created exactly when a record with it was saved, so
      a record whose save failed is tried again when its key comes up again. */
  lemma ImportGuarantees(data: map<string, seq<Record>>, ctx: ImportContext)
    ensures var p := RunModels(Initial, ImportOrder, data, ctx);
            && DistinctBy(SavedKey, p.saved)
            && (forall k :: 0 <= k < |p.saved| ==>
                  && p.saved[k].model in ModelKeys && p.saved[k].model != "user"
                  && FromData(p.saved[k], data) && OwnerResolved(p.saved[k], ctx))
            && (ctx.dryRun ==> p.saved == [] && forall m :: m in p.created ==> p.created[m] == {})
    ensures var p := RunModels(Initial, ImportOrder, data, ctx);
            forall m, x :: m in p.created && x in p.created[m] <==>
              exists k :: 0 <= k < |p.saved| && SavedKey(p.saved[k]) == (m, x)
  {
    var p := RunModels(Initial, ImportOrder, data, ctx);
    RunModelsGood(ImportOrder, data, ctx);
    RunModelsCreatedSaved(ImportOrder, data, ctx);
    GoodGuarantees(p, data, ctx);
  }

  /** The guarantees of an import run, for any state that keeps `Good`
      and `CreatedSaved`. */
  lemma GoodGuarantees(p: Progress, data: map<string, seq<Record>>, ctx: ImportContext)
    requires Good(p, data, ctx) && CreatedSaved(p)
    ensures && DistinctBy(SavedKey, p.saved)
            && (forall k :: 0 <= k < |p.saved| ==>
                  && p.saved[k].model in ModelKeys && p.saved[k].model != "user"
                  && FromData(p.saved[k], data) && OwnerResolved(p.saved[k], ctx))
            && (ctx.dryRun ==> p.saved == [] && forall m :: m in p.created ==> p.created[m] == {})
    ensures forall m, x :: m in p.created && x in p.created[m] <==>
              exists k :: 0 <= k < |p.saved| && SavedKey(p.saved[k]) == (m, x)
  {
    SavedAreCreated(p, data, ctx);
  }

  /** Under `Good`, the key of every saved record is recorded as created. */
  lemma SavedAreCreated(p: Progress, data: map<string, seq<Record>>, ctx: ImportContext)
    requires Good(p, data, ctx)
    ensures forall m, x :: (exists k :: 0 <= k < |p.saved| && SavedKey(p.saved[k]) == (m, x)) ==>
              m in p.created && x in p.created[m]
  {
    forall m, x | exists k :: 0 <= k < |p.saved| && SavedKey(p.saved[k]) == (m, x)
      ensures m in p.created && x in p.created[m]
    {
      var k :| 0 <= k < |p.saved| && SavedKey(p.saved[k]) == (m, x);
      assert p.saved[k].model in p.created && p.saved[k].record.pk in p.created[p.saved[k].model];
    }
  }

  /** The position of a model in the visiting order. */
  function Rank(names: seq<string>, model: string): (k: nat)
    requires model in names
    ensures k < |names| && names[k] == model
    ensures forall i :: 0 <= i < k ==> names[i] != model
  {
    if names[0] == model then 0 else 1 + Rank(names[1..], model)
  }

  /** Processing a section only appends records of that section's model. */
  lemma {:induction false} RunRecordsAppends(p: Progress, model: string, recs: seq<Record>, ctx: ImportContext)
    requires model in p.created
    ensures p.saved <= RunRecords(p, model, recs, ctx).saved
    ensures forall k :: |p.saved| <= k < |RunRecords(p, model, recs, ctx).saved| ==>
              RunRecords(p, model, recs, ctx).saved[k].model == model
  {
    if recs != [] {
      var init := RunRecords(p, model, recs[..|recs| - 1], ctx);
      RunRecordsAppends(p, model, recs[..|recs| - 1], ctx);
      var q := Step(init, model, recs[|recs| - 1], ctx);
      assert q.saved == init.saved || q.saved == init.saved + [Saved(model, Remapped(recs[|recs| - 1], ctx))];
    }
  }

  /** The models of `s` occur in the first `n` positions of the visiting
      order, and in that order. */
  ghost predicate InOrder(s: seq<Saved>, n: nat)
    requires n <= |ImportOrder|
  {
    && (forall k :: 0 <= k < |s| ==> s[k].model in ImportOrder[..n])
    && (forall i, j :: 0 <= i < j < |s| ==> Rank(ImportOrder, s[i].model) <= Rank(ImportOrder, s[j].model))
  }

  /** Each model is visited once. */
  lemma ImportOrderDistinct()
    ensures forall i, j :: 0 <= i < j < |ImportOrder| ==> ImportOrder[i] != ImportOrder[j]
  {
  }

  lemma RankAt(i: nat)
    requires i < |ImportOrder|
    ensures Rank(ImportOrder, ImportOrder[i]) == i
  {
    ImportOrderDistinct();
  }

  lemma InOrderStep(before: seq<Saved>, after: seq<Saved>, n: nat)
    requires 0 < n <= |ImportOrder| && InOrder(before, n - 1) && before <= after
    requires forall k :: |before| <= k < |after| ==> after[k].model == ImportOrder[n - 1]
    ensures InOrder(after, n)
  {
    var model := ImportOrder[n - 1];
    RankAt(n - 1);
    forall k | 0 <= k < |before| ensures Rank(ImportOrder, before[k].model) < n - 1 {
      var i :| 0 <= i < n - 1 && ImportOrder[i] == before[k].model;
    }
    forall k | 0 <= k < |after| ensures after[k].model in ImportOrder[..n] {
      if k < |before| {
        assert after[k] == before[k];
      }
    }
    forall i, j | 0 <= i < j < |after| ensures Rank(ImportOrder, after[i].model) <= Rank(ImportOrder, after[j].model) {
      if j < |before| {
        assert after[i] == before[i] && after[j] == before[j];
      } else if i < |before| {
        assert after[i] == before[i];
      }
    }
  }

  /** Records are saved section by section in the visiting order. */
  lemma {:induction false} SavedInOrder(n: nat, data: map<string, seq<Record>>, ctx: ImportContext)
    requires n <= |ImportOrder|
    ensures InOrder(RunModels(Initial, ImportOrder[..n], data, ctx).saved, n)
  {
    if n > 0 {
      SavedInOrder(n - 1, data, ctx);
      assert ImportOrder[..n][..n - 1] == ImportOrder[..n - 1];
      var q := RunModels(Initial, ImportOrder[..n - 1], data, ctx);
      var model := ImportOrder[n - 1];
      if Imports(data, model) {
        RunRecordsAppends(Enter(q, model), model, data[model], ctx);
        InOrderStep(q.saved, RunRecords(Enter(q, model), model, data[model], ctx).saved, n);
      } else {
        InOrderStep(q.saved, q.saved, n);
      }
    }
  }
}
