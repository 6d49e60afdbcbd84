/** The browser-side mock of the data service: the whole portfolio document
    kept in one localStorage slot. `JSON.stringify` and `JSON.parse` are
    taken as the identity, so a slot holds the document itself; the
    simulated latency is left out. */
module LocalStore {
  import opened PortfolioTypes

  /** The one slot every operation reads or writes. */
  const StorageKey: string := "portfolio_cms_data_v2"

  /** localStorage: the documents under their keys. */
  type Slots = map<string, PortfolioData>

  /** Every slot but the service's own is as it was. */
  ghost predicate OthersKept(before: Slots, after: Slots) {
    forall k :: k != StorageKey ==> (k in after <==> k in before) && (k in before ==> after[k] == before[k])
  }

  /** What `get` and `reset` hand back, with the storage they leave. */
  datatype Fetch = Fetch(data: PortfolioData, slots: Slots)

  /** `db.update(data)`: the slot is overwritten with the document. */
  function Write(slots: Slots, data: PortfolioData): (r: Slots)
    ensures StorageKey in r && r[StorageKey] == data
    ensures OthersKept(slots, r)
  {
    slots[StorageKey := data]
  }

  /** `db.get()`: the stored document when there is one; otherwise the slot
      is initialised with INITIAL_DATA, which is returned. Afterwards the slot
      holds what was returned. */
  function Read(slots: Slots): (r: Fetch)
    ensures StorageKey in r.slots && r.slots[StorageKey] == r.data
    ensures OthersKept(slots, r.slots)
    ensures StorageKey in slots ==> r == Fetch(slots[StorageKey], slots)
    ensures StorageKey !in slots ==> r.data == InitialData
  {
    if StorageKey in slots then Fetch(slots[StorageKey], slots)
    else Fetch(InitialData, Write(slots, InitialData))
  }

  /** `db.reset()`: INITIAL_DATA is stored and returned. */
  function Cleared(slots: Slots): (r: Fetch)
    ensures r.data == InitialData && r.slots == Write(slots, InitialData)
  {
    Fetch(InitialData, Write(slots, InitialData))
  }

  /** A read after an update gives back the document written, and stores
      nothing new. */
  lemma ReadAfterWrite(slots: Slots, data: PortfolioData)
    ensures Read(Write(slots, data)) == Fetch(data, Write(slots, data))
  {
  }

  /** Reading twice is reading once. */
  lemma ReadIsIdempotent(slots: Slots)
    ensures Read(Read(slots).slots) == Read(slots)
  {
  }

  /** After a reset, a read gives INITIAL_DATA whatever was stored. */
  lemma ReadAfterReset(slots: Slots)
    ensures Read(Cleared(slots).slots).data == InitialData
  {
  }

  /** A read of the empty storage and a reset agree. */
  lemma FirstReadIsReset()
    ensures Read(map[]) == Cleared(map[])
  {
  }

  /** localStorage, seen through the service's `get`, `update` and `reset`. */
  class LocalStorage {
    var slots: Slots

    constructor (initial: Slots)
      ensures slots == initial
    {
      slots := initial;
    }

    method Get() returns (data: PortfolioData)
      modifies this
      ensures Fetch(data, slots) == Read(old(slots))
    {
      if StorageKey in slots {
        return slots[StorageKey];
      }
      slots := slots[StorageKey := InitialData];
      return InitialData;
    }

    method Update(data: PortfolioData)
      modifies this
      ensures slots == Write(old(slots), data)
    {
      slots := slots[StorageKey := data];
    }

    method Reset() returns (data: PortfolioData)
      modifies this
      ensures Fetch(data, slots) == Cleared(old(slots))
    {
      slots := slots[StorageKey := InitialData];
      return InitialData;
    }
  }
}
