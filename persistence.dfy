/**
 * The document store the request handlers delegate to: one collection,
 * an id-to-document map, with the primitives the handlers call (findById,
 * find, findByIdAndUpdate, findByIdAndDelete, create).
 *
 * Two pieces of per-model behaviour are parameters of a collection:
 * - `middleware`: the conditions that the model's query middleware adds to
 *   every query whose name starts with "find" (findById, find,
 *   findByIdAndUpdate and findByIdAndDelete all do);
 * - `defaults` and `valid`: the schema's default values and its validators,
 *   the latter as an abstract predicate on the resulting document.
 */
module Persistence {
  import opened Json

  /** One condition of a query filter: `{path: value}` or `{path: {$ne: value}}`. */
  datatype Cond = Eq(path: string, value: Value) | Ne(path: string, value: Value)

  /** `$ne` also matches documents that lack the field. */
  predicate Satisfies(d: Doc, c: Cond) {
    match c
    case Eq(p, v) => p in d && d[p] == v
    case Ne(p, v) => !(p in d && d[p] == v)
  }

  predicate MatchesAll(d: Doc, filter: seq<Cond>) {
    forall i :: 0 <= i < |filter| ==> Satisfies(d, filter[i])
  }

  datatype WriteError = ValidationFailed | DuplicateKey

  datatype UpdateResult = Updated(doc: Doc) | NotMatched | Invalid

  datatype CreateResult = Created(doc: Doc) | Rejected(error: WriteError)

  class Collection {
    var docs: map<Id, Doc>
    const middleware: seq<Cond>
    const defaults: Doc
    const valid: Doc -> bool

    constructor (middleware: seq<Cond>, defaults: Doc, valid: Doc -> bool)
      ensures docs == map[]
      ensures this.middleware == middleware && this.defaults == defaults && this.valid == valid
    {
      docs := map[];
      this.middleware := middleware;
      this.defaults := defaults;
      this.valid := valid;
    }

    /** The document stored under `id` passes the query middleware. */
    predicate Visible(id: Id)
      reads this
    {
      id in docs && MatchesAll(docs[id], middleware)
    }

    /** `Model.findById(id)`: the document, or nothing when it is absent or filtered out. */
    function FindById(id: Id): (r: Option<Doc>)
      reads this
      ensures r.Some? <==> Visible(id)
      ensures r.Some? ==> r.value == docs[id]
    {
      if Visible(id) then Some(docs[id]) else None
    }

    /** `Model.find(filter)`: every visible document matching `filter`, by id. */
    function Find(filter: seq<Cond>): (r: map<Id, Doc>)
      reads this
      ensures forall id :: id in r <==> Visible(id) && MatchesAll(docs[id], filter)
      ensures forall id :: id in r ==> id in docs && r[id] == docs[id]
    {
      map id | id in docs && MatchesAll(docs[id], middleware) && MatchesAll(docs[id], filter) :: docs[id]
    }

    /**
     * `Model.findByIdAndUpdate(id, patch, {new: true, runValidators})`: sets
     * each field of `patch` on the matched document and returns the updated
     * document.
     */
    method FindByIdAndUpdate(id: Id, patch: Doc, runValidators: bool) returns (r: UpdateResult)
      modifies this
      ensures !old(Visible(id)) ==> r == NotMatched && docs == old(docs)
      ensures old(Visible(id)) && runValidators && !valid(old(docs[id]) + patch) ==>
                r == Invalid && docs == old(docs)
      ensures old(Visible(id)) && (!runValidators || valid(old(docs[id]) + patch)) ==>
                r == Updated(old(docs[id]) + patch) && docs == old(docs)[id := old(docs[id]) + patch]
    {
      if !Visible(id) {
        return NotMatched;
      }
      var updated := docs[id] + patch;
      if runValidators && !valid(updated) {
        return Invalid;
      }
      docs := docs[id := updated];
      r := Updated(updated);
    }

    /** `Model.findByIdAndDelete(id)`: removes the matched document and returns it. */
    method FindByIdAndDelete(id: Id) returns (r: Option<Doc>)
      modifies this
      ensures old(Visible(id)) ==> r == Some(old(docs[id])) && docs == old(docs) - {id}
      ensures !old(Visible(id)) ==> r == None && docs == old(docs)
    {
      if !Visible(id) {
        return None;
      }
      r := Some(docs[id]);
      docs := docs - {id};
    }

    /**
     * `Model.create(body)` with the store-assigned id `newId`: the schema
     * defaults are filled in for fields the body lacks, the result is
     * validated, and it is inserted unless the id is taken.
     */
    method Create(newId: Id, body: Doc) returns (r: CreateResult)
      modifies this
      ensures !valid(defaults + body) ==> r == Rejected(ValidationFailed) && docs == old(docs)
      ensures valid(defaults + body) && newId in old(docs) ==> r == Rejected(DuplicateKey) && docs == old(docs)
      ensures valid(defaults + body) && newId !in old(docs) ==>
                r == Created(defaults + body) && docs == old(docs)[newId := defaults + body]
    {
      var doc := defaults + body;
      if !valid(doc) {
        return Rejected(ValidationFailed);
      }
      if newId in docs {
        return Rejected(DuplicateKey);
      }
      docs := docs[newId := doc];
      r := Created(doc);
    }
  }
}
