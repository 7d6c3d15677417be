/**
 A collection and the commands that write to it: inserts, updates, replacements,
 upserts and deletes, and what is left where a batch breaks off.
 */
module DocStore {
  import opened Common
  import opened Bson
  import opened DocUpdate
  import opened DocQuery

  const DUPLICATE_KEY := 11000
  const IMMUTABLE_FIELD := 66

  /** The identifier a stored document is found by; a missing one reads as null. */
  function IdOf(d: Doc): Value {
    match Lookup(d, ID)
    case None => Null
    case Some(id) => id
  }

  // ----- selecting -----

  function Located(docs: seq<Doc>, id: Value): bool {
    docs != [] && (Equal(IdOf(docs[0]), id) || Located(docs[1..], id))
  }

  /** The documents a filter selects, in order; a filter that cannot be evaluated fails. */
  function Find(e: Engine, docs: seq<Doc>, filter: Doc): Outcome<seq<Doc>> {
    if docs == [] then Ok([])
    else
      match Matches(e, docs[0], filter)
      case Fail(code) => Fail(code)
      case Ok(held) =>
        match Find(e, docs[1..], filter)
        case Fail(code) => Fail(code)
        case Ok(rest) => Ok(if held then [docs[0]] + rest else rest)
  }

  /** Where the matching documents are from position `at` on, stopping at the first unless all are wanted. */
  function SelectFor(e: Engine, docs: seq<Doc>, at: nat, filter: Doc, all: bool): Outcome<seq<nat>>
    requires at <= |docs|
    decreases |docs| - at
  {
    if at == |docs| then Ok([])
    else
      match Matches(e, docs[at], filter)
      case Fail(code) => Fail(code)
      case Ok(held) =>
        if held && !all then Ok([at])
        else
          match SelectFor(e, docs, at + 1, filter, all)
          case Fail(code) => Fail(code)
          case Ok(rest) => Ok(if held then [at] + rest else rest)
  }

  lemma {:induction false} SelectForAscends(e: Engine, docs: seq<Doc>, at: nat, filter: Doc, all: bool)
    requires at <= |docs| && SelectFor(e, docs, at, filter, all).Ok?
    ensures var s := SelectFor(e, docs, at, filter, all).value;
            && (forall i :: 0 <= i < |s| ==> at <= s[i] < |docs|)
            && (forall i, j :: 0 <= i < j < |s| ==> s[i] < s[j])
    decreases |docs| - at
  {
    if at < |docs| && !(Matches(e, docs[at], filter).value && !all) {
      SelectForAscends(e, docs, at + 1, filter, all);
    }
  }

  // ----- writing -----

  /** The stored form of a document: its identifier first, minted if it had none. */
  function Stored(d: Doc, minted: Value): Doc {
    WithIdentifier(d, IdentifierOf(d, minted))
  }

  function Insert(docs: seq<Doc>, d: Doc, minted: Value): Outcome<seq<Doc>> {
    if Located(docs, IdentifierOf(d, minted)) then Fail(DUPLICATE_KEY) else Ok(docs + [Stored(d, minted)])
  }

  datatype Counts = Counts(matched: nat, modified: nat)

  /** One document rewritten: the collection after, and whether it changed. */
  function RewriteOne(e: Engine, docs: seq<Doc>, i: nat, change: Doc): Outcome<(seq<Doc>, bool)>
    requires i < |docs|
  {
    match ApplyUpdate(e, docs[i], change)
    case Fail(code) => Fail(code)
    case Ok(updated) =>
      if !Equal(IdOf(docs[i]), IdOf(updated)) then Fail(IMMUTABLE_FIELD)
      else if CompareFields(docs[i], updated) != 0 then Ok((docs[i := updated], true))
      else Ok((docs, false))
  }

  /** Rewrites the selected documents in order; a failure keeps what was rewritten before it. */
  function Rewrite(e: Engine, docs: seq<Doc>, selected: seq<nat>, change: Doc, done: Counts): (r: (seq<Doc>, Outcome<Counts>))
    requires forall i :: 0 <= i < |selected| ==> selected[i] < |docs|
    ensures |r.0| == |docs|
    decreases |selected|
  {
    if selected == [] then (docs, Ok(done))
    else
      match RewriteOne(e, docs, selected[0], change)
      case Fail(code) => (docs, Fail(code))
      case Ok((next, changed)) =>
        Rewrite(e, next, selected[1..], change, Counts(done.matched + 1, done.modified + if changed then 1 else 0))
  }

  datatype UpdateSpec = UpdateSpec(filter: Doc, change: Doc, multi: bool, upsert: bool, minted: Value)

  function Create(e: Engine, docs: seq<Doc>, u: UpdateSpec): (seq<Doc>, Outcome<Counts>) {
    match Upsert(e, u.filter, u.change, u.minted)
    case Fail(code) => (docs, Fail(code))
    case Ok(created) =>
      match Insert(docs, created, u.minted)
      case Fail(code) => (docs, Fail(code))
      case Ok(next) => (next, Ok(Counts(1, 0)))
  }

  function Update(e: Engine, docs: seq<Doc>, u: UpdateSpec): (seq<Doc>, Outcome<Counts>) {
    match SelectFor(e, docs, 0, u.filter, u.multi)
    case Fail(code) => (docs, Fail(code))
    case Ok(selected) =>
      SelectForAscends(e, docs, 0, u.filter, u.multi);
      if selected == [] && u.upsert then Create(e, docs, u)
      else Rewrite(e, docs, selected, u.change, Counts(0, 0))
  }

  /** Deletes the positions from the last to the first, so that none moves before its turn. */
  function Deleted(docs: seq<Doc>, selected: seq<nat>): seq<Doc>
    requires (forall i :: 0 <= i < |selected| ==> selected[i] < |docs|)
    requires forall i, j :: 0 <= i < j < |selected| ==> selected[i] < selected[j]
    decreases |selected|
  {
    if selected == [] then docs
    else
      var last := selected[|selected| - 1];
      Deleted(docs[..last] + docs[last + 1..], selected[..|selected| - 1])
  }

  function Remove(e: Engine, docs: seq<Doc>, filter: Doc, limit: int): (seq<Doc>, Outcome<nat>) {
    if limit != 0 && limit != 1 then (docs, Fail(BAD_VALUE))
    else
      match SelectFor(e, docs, 0, filter, limit == 0)
      case Fail(code) => (docs, Fail(code))
      case Ok(selected) =>
        SelectForAscends(e, docs, 0, filter, limit == 0);
        (Deleted(docs, selected), Ok(|selected|))
  }

  // ----- commands -----

  datatype Minted = Minted(doc: Doc, id: Value)

  datatype Command =
    | InsertMany(batch: seq<Minted>, ordered: bool)
    | UpdateMany(specs: seq<UpdateSpec>)
    | DeleteMany(filters: seq<(Doc, int)>)
    | Drop

  /** An ordered batch stops where it broke, an unordered one carries on. */
  function InsertBatch(docs: seq<Doc>, batch: seq<Minted>, ordered: bool): seq<Doc>
    decreases |batch|
  {
    if batch == [] then docs
    else
      match Insert(docs, batch[0].doc, batch[0].id)
      case Fail(_) => if ordered then docs else InsertBatch(docs, batch[1..], ordered)
      case Ok(next) => InsertBatch(next, batch[1..], ordered)
  }

  function UpdateBatch(e: Engine, docs: seq<Doc>, specs: seq<UpdateSpec>): seq<Doc>
    decreases |specs|
  {
    if specs == [] then docs
    else
      var (next, outcome) := Update(e, docs, specs[0]);
      if outcome.Fail? then next else UpdateBatch(e, next, specs[1..])
  }

  function DeleteBatch(e: Engine, docs: seq<Doc>, filters: seq<(Doc, int)>): seq<Doc>
    decreases |filters|
  {
    if filters == [] then docs
    else
      var (next, outcome) := Remove(e, docs, filters[0].0, filters[0].1);
      if outcome.Fail? then next else DeleteBatch(e, next, filters[1..])
  }

  function Step(e: Engine, docs: seq<Doc>, c: Command): seq<Doc> {
    match c
    case InsertMany(batch, ordered) => InsertBatch(docs, batch, ordered)
    case UpdateMany(specs) => UpdateBatch(e, docs, specs)
    case DeleteMany(filters) => DeleteBatch(e, docs, filters)
    case Drop => []
  }

  function Run(e: Engine, docs: seq<Doc>, commands: seq<Command>): seq<Doc>
    decreases |commands|
  {
    if commands == [] then docs else Run(e, Step(e, docs, commands[0]), commands[1..])
  }
}
