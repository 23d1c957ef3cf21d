/** The search-engine adapter's data: query results, endpoint descriptors,
    the bulk accumulator `ESBulk` and the adapter's client list. */
module Adapter {
  import opened Wrappers

  /** C++'s `int64_t`. */
  newtype int64 = x: int | -0x8000_0000_0000_0000 <= x < 0x8000_0000_0000_0000

  /** A failed call's status: its kind and message. */
  datatype Status = Error(message: string) | SemanticError(message: string)

  /** One matched document: the indexed text and the identity fields stored
      with it (`vid` for a vertex, `src`, `dst` and `rank` for an edge). */
  datatype Item = Item(text: string, vid: string, src: string, dst: string, rank: int64)

  datatype ESQueryResult = ESQueryResult(items: seq<Item>)

  /** One search-engine endpoint. */
  datatype ESClient = ESClient(protocol: string, address: string, user: string, password: string)

  /** The arguments of `genDocID`: a vertex id, or an edge's source, destination
      and rank; the fields a record does not use are "" and 0. */
  datatype DocKey = DocKey(vid: string, src: string, dst: string, rank: int64)

  /** One bulk action, with the document id `genDocID` gave for its key.
      A delete carries no text. */
  datatype Action =
    | Upsert(docId: string, key: DocKey, text: string)
    | Delete(docId: string, key: DocKey)

  /** One `put` or `delete_` call: the target index and the action. */
  datatype Entry = Entry(index: string, action: Action)

  /** The accumulated actions, per index name. */
  type Documents = map<string, seq<Action>>

  /** The actions of `log` that target `index`, in the order they were recorded. */
  function ActionsFor(log: seq<Entry>, index: string): seq<Action>
  {
    if log == [] then []
    else
      var last := log[|log| - 1];
      ActionsFor(log[..|log| - 1], index) + (if last.index == index then [last.action] else [])
  }

  /** The index names that `log` mentions. */
  function IndexNames(log: seq<Entry>): set<string>
  {
    set e | e in log :: e.index
  }

  /** The per-index map that a sequence of `put`/`delete_` calls builds:
      one key per index mentioned, holding that index's actions in call order. */
  function Group(log: seq<Entry>): Documents
  {
    map i | i in IndexNames(log) :: ActionsFor(log, i)
  }

  /** The actions stored under `index`, none when the index is absent. */
  function ActionsAt(docs: Documents, index: string): seq<Action>
  {
    if index in docs then docs[index] else []
  }

  lemma {:induction false} ActionsForAbsent(log: seq<Entry>, index: string)
    requires index !in IndexNames(log)
    ensures ActionsFor(log, index) == []
  {
    if log != [] {
      var init := log[..|log| - 1];
      assert forall e :: e in init ==> e in log;
      ActionsForAbsent(init, index);
    }
  }

  lemma ActionsForAppend(log: seq<Entry>, e: Entry, index: string)
    ensures ActionsFor(log + [e], index) == ActionsFor(log, index) + (if e.index == index then [e.action] else [])
  {
    assert (log + [e])[..|log|] == log;
  }

  lemma IndexNamesAppend(log: seq<Entry>, e: Entry)
    ensures IndexNames(log + [e]) == IndexNames(log) + {e.index}
  {
    forall x | x in log + [e] ensures x in log || x == e { }
  }

  /** Recording one more call appends its action under its own index and
      leaves every other index's sequence as it was. */
  lemma GroupAppend(log: seq<Entry>, e: Entry)
    ensures Group(log + [e]) == Group(log)[e.index := ActionsAt(Group(log), e.index) + [e.action]]
  {
    var g, g' := Group(log), Group(log + [e]);
    var expected := g[e.index := ActionsAt(g, e.index) + [e.action]];
    IndexNamesAppend(log, e);
    assert g'.Keys == expected.Keys;
    forall k | k in g'.Keys ensures g'[k] == expected[k] {
      ActionsForAppend(log, e, k);
      if k == e.index && k !in IndexNames(log) {
        ActionsForAbsent(log, k);
      }
    }
  }

  /** A grouping is empty exactly when no call was recorded. */
  lemma GroupEmpty(log: seq<Entry>)
    ensures Group(log) == map[] <==> log == []
  {
    if log != [] {
      assert log[0] in log;
      assert log[0].index in Group(log);
    }
  }

  /** The bulk accumulator. `log` is the history of `put`/`delete_` calls;
      `documents` is always its grouping by index name. */
  class ESBulk {
    const genDocID: DocKey -> string
    var documents: Documents
    ghost var log: seq<Entry>

    ghost predicate Valid()
      reads this
    {
      documents == Group(log)
    }

    constructor (genDocID: DocKey -> string)
      ensures Valid() && this.genDocID == genDocID
      ensures log == [] && documents == map[]
    {
      this.genDocID := genDocID;
      documents := map[];
      log := [];
    }

    /** Records an upsert of `text` under `indexName`. */
    method Put(indexName: string, vid: string, src: string, dst: string, rank: int64, text: string)
      requires Valid()
      modifies this
      ensures Valid()
      ensures var a := Upsert(genDocID(DocKey(vid, src, dst, rank)), DocKey(vid, src, dst, rank), text);
        && log == old(log) + [Entry(indexName, a)]
        && documents == old(documents)[indexName := ActionsAt(old(documents), indexName) + [a]]
    {
      var key := DocKey(vid, src, dst, rank);
      var a := Upsert(genDocID(key), key, text);
      GroupAppend(log, Entry(indexName, a));
      documents := documents[indexName := ActionsAt(documents, indexName) + [a]];
      log := log + [Entry(indexName, a)];
    }

    /** Records a delete of the document with this identity under `indexName`. */
    method Delete(indexName: string, vid: string, src: string, dst: string, rank: int64)
      requires Valid()
      modifies this
      ensures Valid()
      ensures var a := Action.Delete(genDocID(DocKey(vid, src, dst, rank)), DocKey(vid, src, dst, rank));
        && log == old(log) + [Entry(indexName, a)]
        && documents == old(documents)[indexName := ActionsAt(old(documents), indexName) + [a]]
    {
      var key := DocKey(vid, src, dst, rank);
      var a := Action.Delete(genDocID(key), key);
      GroupAppend(log, Entry(indexName, a));
      documents := documents[indexName := ActionsAt(documents, indexName) + [a]];
      log := log + [Entry(indexName, a)];
    }

    /** True exactly when no `put` or `delete_` has been recorded. */
    function Empty(): (r: bool)
      reads this
      requires Valid()
      ensures r <==> log == []
    {
      GroupEmpty(log);
      |documents| == 0
    }
  }

  /** The adapter's endpoint pool. Its search and bulk operations talk to the
      network and appear elsewhere as parameters. */
  class ESAdapter {
    var clients: seq<ESClient>

    constructor (clients: seq<ESClient>)
      ensures this.clients == clients
    {
      this.clients := clients;
    }

    /** Replaces the whole client list. */
    method SetClients(clients: seq<ESClient>)
      modifies this
      ensures this.clients == clients
    {
      this.clients := clients;
    }
  }
}
