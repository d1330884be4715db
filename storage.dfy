/** The persistence store (src/services/storage.ts): a conversations table keyed
    by `id` with an index on `createdAt`, and a settings table that holds one row
    under a fixed key. The two object stores are the two map fields of `Store`. */
module Storage {
  import opened Types

  /** The one key the settings table is written under. */
  const SettingsKey := "user-settings"

  /** What `getSettings` returns while no settings row exists. */
  const DefaultSettings := Settings(map[], "gpt-3.5-turbo", "dark")

  /** A `Partial<Settings>`: `None` is a field the patch does not mention. */
  datatype SettingsPatch = SettingsPatch(apiKeys: Option<map<string, string>>, defaultModel: Option<string>, theme: Option<string>)

  const EmptyPatch := SettingsPatch(None, None, None)

  /** The settings a settings table stands for: its row, or the defaults. */
  function SettingsOrDefault(table: map<string, Settings>): Settings
  {
    if SettingsKey in table then table[SettingsKey] else DefaultSettings
  }

  /** `{...current, ...patch}`: a shallow merge in which the patch wins field by
      field. A field the patch does not mention keeps its value; a mentioned one is
      replaced wholesale, so a provider missing from new `apiKeys` loses its key. */
  function Merge(current: Settings, patch: SettingsPatch): (s: Settings)
    ensures patch.apiKeys.None? ==> s.apiKeys == current.apiKeys
    ensures patch.defaultModel.None? ==> s.defaultModel == current.defaultModel
    ensures patch.theme.None? ==> s.theme == current.theme
    ensures patch.apiKeys.Some? ==>
      s.apiKeys == patch.apiKeys.value &&
      forall p :: p in current.apiKeys && p !in patch.apiKeys.value ==> p !in s.apiKeys
    ensures patch.defaultModel.Some? ==> s.defaultModel == patch.defaultModel.value
    ensures patch.theme.Some? ==> s.theme == patch.theme.value
  {
    Settings(
      if patch.apiKeys.Some? then patch.apiKeys.value else current.apiKeys,
      if patch.defaultModel.Some? then patch.defaultModel.value else current.defaultModel,
      if patch.theme.Some? then patch.theme.value else current.theme)
  }

  /** The patch that has the effect of applying `p` and then `q`. */
  function Then(p: SettingsPatch, q: SettingsPatch): SettingsPatch
  {
    SettingsPatch(
      if q.apiKeys.Some? then q.apiKeys else p.apiKeys,
      if q.defaultModel.Some? then q.defaultModel else p.defaultModel,
      if q.theme.Some? then q.theme else p.theme)
  }

  // ---------------------------------------------------------------------------
  // The order of the by-date index

  /** The order of string keys: lexicographic, character by character, where a
      proper prefix comes first. Characters compare as code points; IndexedDB
      compares UTF-16 code units, which agrees on the decimal-digit ids the app
      writes but not on strings with characters above U+FFFF. */
  predicate IdBefore(a: string, b: string)
  {
    if a == [] then b != []
    else if b == [] then false
    else a[0] < b[0] || (a[0] == b[0] && IdBefore(a[1..], b[1..]))
  }

  lemma {:induction false} IdBeforeTotal(a: string, b: string)
    requires a != b
    ensures IdBefore(a, b) || IdBefore(b, a)
  {
    if a != [] && b != [] && a[0] == b[0] {
      assert a == [a[0]] + a[1..] && b == [b[0]] + b[1..];
      IdBeforeTotal(a[1..], b[1..]);
    }
  }

  lemma {:induction false} IdBeforeAsymmetric(a: string, b: string)
    ensures !(IdBefore(a, b) && IdBefore(b, a))
  {
    if a != [] && b != [] && a[0] == b[0] {
      IdBeforeAsymmetric(a[1..], b[1..]);
    }
  }

  lemma {:induction false} IdBeforeTransitive(a: string, b: string, c: string)
    requires IdBefore(a, b) && IdBefore(b, c)
    ensures IdBefore(a, c)
  {
    if a != [] && b != [] && c != [] && a[0] == b[0] && b[0] == c[0] {
      IdBeforeTransitive(a[1..], b[1..], c[1..]);
    }
  }

  /** `x` comes before `y` in the newest-first listing: the by-date index orders
      by `createdAt` and then by key, and the listing reverses it. */
  predicate Newer(x: Conversation, y: Conversation)
  {
    x.createdAt > y.createdAt || (x.createdAt == y.createdAt && IdBefore(y.id, x.id))
  }

  predicate NewestFirst(r: seq<Conversation>)
  {
    forall i :: 0 <= i < |r| - 1 ==> Newer(r[i], r[i + 1])
  }

  /** The ids of a list of conversations. */
  function Ids(r: seq<Conversation>): (ids: set<string>)
    ensures forall i :: 0 <= i < |r| ==> r[i].id in ids
  {
    if r == [] then {}
    else
      var rest := Ids(r[1..]);
      assert forall i :: 1 <= i < |r| ==> r[i] == r[1..][i - 1];
      {r[0].id} + rest
  }

  /** Every id in `Ids(r)` is the id of an entry of `r`. */
  lemma {:induction false} IdsHaveEntries(r: seq<Conversation>)
    ensures forall id :: id in Ids(r) ==> exists i :: 0 <= i < |r| && r[i].id == id
  {
    if r != [] {
      IdsHaveEntries(r[1..]);
      assert Ids(r) == {r[0].id} + Ids(r[1..]);
      forall id | id in Ids(r) ensures exists i :: 0 <= i < |r| && r[i].id == id {
        if id != r[0].id {
          var k :| 0 <= k < |r| - 1 && r[1..][k].id == id;
          assert r[k + 1].id == id;
        }
      }
    }
  }

  predicate DistinctIds(r: seq<Conversation>)
  {
    forall i, j :: 0 <= i < j < |r| ==> r[i].id != r[j].id
  }

  /** Every entry of `r` is the conversation the table holds under its id. */
  predicate EntriesOf(r: seq<Conversation>, table: map<string, Conversation>)
  {
    forall i :: 0 <= i < |r| ==> r[i].id in table && table[r[i].id] == r[i]
  }

  lemma InsertKeepsEntries(r: seq<Conversation>, c: Conversation, table: map<string, Conversation>)
    requires EntriesOf(r, table) && c.id in table && table[c.id] == c
    ensures EntriesOf(InsertByDate(r, c), table)
  {
    var s := InsertByDate(r, c);
    forall i | 0 <= i < |s| ensures s[i].id in table && table[s[i].id] == s[i] {
      if s[i] != c {
        var k :| 0 <= k < |r| && r[k] == s[i];
      }
    }
  }

  /** `getConversations`' answer for a table: every stored conversation exactly
      once, newest first. */
  predicate IsListing(r: seq<Conversation>, table: map<string, Conversation>)
  {
    && EntriesOf(r, table)
    && Ids(r) == table.Keys
    && DistinctIds(r)
    && NewestFirst(r)
  }

  /** The listing of the part of `table` outside `pending`. */
  predicate ListedSoFar(r: seq<Conversation>, table: map<string, Conversation>, pending: set<string>)
  {
    Ids(r) == table.Keys - pending && EntriesOf(r, table) && DistinctIds(r) && NewestFirst(r)
  }

  /** Inserting one more stored conversation extends the listing by its id. */
  lemma ListingStep(r: seq<Conversation>, table: map<string, Conversation>, pending: set<string>, id: string)
    requires pending <= table.Keys && id in pending && table[id].id == id
    requires ListedSoFar(r, table, pending)
    ensures ListedSoFar(InsertByDate(r, table[id]), table, pending - {id})
  {
    var c := table[id];
    InsertByDateSound(r, c);
    InsertKeepsEntries(r, c, table);
  }

  /** Once nothing is pending the listing is complete, one entry per key. */
  lemma ListingDone(r: seq<Conversation>, table: map<string, Conversation>)
    requires ListedSoFar(r, table, {})
    ensures IsListing(r, table) && |r| == |table|
  {
    DistinctIdsCount(r);
    assert |table| == |table.Keys|;
  }

  /** Inserts `c` into a newest-first list in front of the first entry it is newer than. */
  function InsertByDate(r: seq<Conversation>, c: Conversation): (s: seq<Conversation>)
    ensures |s| == |r| + 1
    ensures forall i :: 0 <= i < |s| ==> s[i] == c || s[i] in r
    ensures s[0] == c || (r != [] && s[0] == r[0])
  {
    if r == [] || Newer(c, r[0]) then [c] + r
    else [r[0]] + InsertByDate(r[1..], c)
  }

  /** Inserting a conversation whose id is new keeps the list newest-first and
      its ids distinct, and adds exactly that id. */
  lemma {:induction false} InsertByDateSound(r: seq<Conversation>, c: Conversation)
    requires NewestFirst(r) && DistinctIds(r)
    requires c.id !in Ids(r)
    ensures NewestFirst(InsertByDate(r, c)) && DistinctIds(InsertByDate(r, c))
    ensures Ids(InsertByDate(r, c)) == Ids(r) + {c.id}
  {
    if r == [] || Newer(c, r[0]) {
      assert InsertByDate(r, c) == [c] + r;
      ConsFacts(c, r);
    } else {
      TailFacts(r);
      InsertByDateSound(r[1..], c);
      InsertBehind(r, c);
    }
  }

  /** The step of `InsertByDateSound` where `c` goes behind the head. */
  lemma InsertBehind(r: seq<Conversation>, c: Conversation)
    requires r != [] && !Newer(c, r[0]) && c.id != r[0].id
    requires NewestFirst(r) && r[0].id !in Ids(r[1..])
    requires var t := InsertByDate(r[1..], c);
      NewestFirst(t) && DistinctIds(t) && Ids(t) == Ids(r[1..]) + {c.id}
    ensures NewestFirst(InsertByDate(r, c)) && DistinctIds(InsertByDate(r, c))
    ensures Ids(InsertByDate(r, c)) == Ids(r[1..]) + {c.id} + {r[0].id}
  {
    var t := InsertByDate(r[1..], c);
    ghost var s := [r[0]] + t;
    assert InsertByDate(r, c) == s;
    NewerTotal(c, r[0]);
    assert Newer(r[0], t[0]) by {
      if t[0] != c {
        assert t[0] == r[1..][0] == r[1];
      }
    }
    ConsFacts(r[0], t);
  }

  /** The listing order is a strict total order on conversations with distinct
      ids: never reflexive, exactly one way round for two distinct ids, transitive. */
  lemma NewerIsStrictTotalOrder(x: Conversation, y: Conversation, z: Conversation)
    ensures !Newer(x, x)
    ensures x.id != y.id ==> (Newer(x, y) <==> !Newer(y, x))
    ensures Newer(x, y) && Newer(y, z) ==> Newer(x, z)
  {
    IdBeforeAsymmetric(x.id, x.id);
    IdBeforeAsymmetric(x.id, y.id);
    if x.id != y.id {
      NewerTotal(x, y);
    }
    if Newer(x, y) && Newer(y, z) {
      NewerTransitive(x, y, z);
    }
  }

  lemma NewerTotal(x: Conversation, y: Conversation)
    requires x.id != y.id
    ensures Newer(x, y) || Newer(y, x)
  {
    IdBeforeTotal(x.id, y.id);
  }

  lemma TailFacts(r: seq<Conversation>)
    requires r != [] && NewestFirst(r) && DistinctIds(r)
    ensures NewestFirst(r[1..]) && DistinctIds(r[1..])
    ensures Ids(r) == {r[0].id} + Ids(r[1..]) && r[0].id !in Ids(r[1..])
  {
    forall i | 0 <= i < |r| - 2 ensures Newer(r[1..][i], r[1..][i + 1]) {
      assert r[1..][i] == r[i + 1] && r[1..][i + 1] == r[i + 2];
    }
    forall i, j | 0 <= i < j < |r| - 1 ensures r[1..][i].id != r[1..][j].id {
      assert r[1..][i] == r[i + 1] && r[1..][j] == r[j + 1];
    }
    forall i | 0 <= i < |r| - 1 ensures r[1..][i].id != r[0].id {
      assert r[1..][i] == r[i + 1];
    }
    IdsHaveEntries(r[1..]);
  }

  lemma ConsFacts(x: Conversation, t: seq<Conversation>)
    requires NewestFirst(t) && DistinctIds(t) && x.id !in Ids(t)
    requires t == [] || Newer(x, t[0])
    ensures NewestFirst([x] + t) && DistinctIds([x] + t)
    ensures Ids([x] + t) == {x.id} + Ids(t)
  {
    var s := [x] + t;
    assert s[1..] == t;
    forall i | 0 < i < |s| ensures s[i] == t[i - 1] && s[i].id != x.id {
      assert t[i - 1].id in Ids(t);
    }
  }

  /** A newest-first list is ordered by `createdAt`, newest first, pairwise. */
  lemma {:induction false} NewestFirstByDate(r: seq<Conversation>)
    requires NewestFirst(r)
    ensures forall i, j :: 0 <= i < j < |r| ==> r[i].createdAt >= r[j].createdAt
  {
    if |r| > 1 {
      NewestFirstByDate(r[1..]);
      forall i, j | 0 <= i < j < |r| ensures r[i].createdAt >= r[j].createdAt {
        if i > 0 {
          assert r[i] == r[1..][i - 1] && r[j] == r[1..][j - 1];
        } else if j > 1 {
          assert r[1] == r[1..][0] && r[j] == r[1..][j - 1];
        }
      }
    }
  }

  /** The listing holds as many conversations as the table. */
  lemma {:induction false} DistinctIdsCount(r: seq<Conversation>)
    requires DistinctIds(r)
    ensures |Ids(r)| == |r|
  {
    if r != [] {
      assert DistinctIds(r[1..]) by {
        forall i, j | 0 <= i < j < |r| - 1 ensures r[1..][i].id != r[1..][j].id {
          assert r[1..][i] == r[i + 1] && r[1..][j] == r[j + 1];
        }
      }
      DistinctIdsCount(r[1..]);
      IdsHaveEntries(r[1..]);
      assert r[0].id !in Ids(r[1..]) by {
        forall i | 0 <= i < |r| - 1 ensures r[1..][i].id != r[0].id {
          assert r[1..][i] == r[i + 1];
        }
      }
    }
  }

  // ---------------------------------------------------------------------------
  // The two object stores

  class Store {
    /** The conversations object store, keyed by `id`. */
    var conversations: map<string, Conversation>
    /** The settings object store. */
    var settings: map<string, Settings>

    /** Every conversation sits under its own id, and the settings table has
        no key other than `user-settings`. */
    ghost predicate Valid()
      reads this
    {
      && (forall id :: id in conversations ==> conversations[id].id == id)
      && settings.Keys <= {SettingsKey}
    }

    /** A freshly created database: both stores empty. */
    constructor ()
      ensures Valid()
      ensures conversations == map[] && settings == map[]
    {
      conversations := map[];
      settings := map[];
    }

    /** `getConversations`: every stored conversation once, newest first. */
    method GetConversations() returns (r: seq<Conversation>)
      requires Valid()
      ensures IsListing(r, conversations)
      ensures |r| == |conversations|
    {
      var pending := conversations.Keys;
      r := [];
      while pending != {}
        invariant pending <= conversations.Keys
        invariant ListedSoFar(r, conversations, pending)
        decreases pending
      {
        var id :| id in pending;
        ListingStep(r, conversations, pending, id);
        r := InsertByDate(r, conversations[id]);
        pending := pending - {id};
      }
      ListingDone(r, conversations);
    }

    /** `saveConversation`: an upsert under `c.id`. */
    method SaveConversation(c: Conversation)
      requires Valid()
      modifies this
      ensures Valid()
      ensures conversations == old(conversations)[c.id := c]
      ensures settings == old(settings)
    {
      conversations := conversations[c.id := c];
    }

    /** `deleteConversation`: removes that key only; an absent key is a no-op. */
    method DeleteConversation(id: string)
      requires Valid()
      modifies this
      ensures Valid()
      ensures conversations == old(conversations) - {id}
      ensures id !in old(conversations) ==> conversations == old(conversations)
      ensures settings == old(settings)
    {
      conversations := conversations - {id};
    }

    /** `clearConversations`: empties the conversations table only. */
    method ClearConversations()
      requires Valid()
      modifies this
      ensures Valid()
      ensures conversations == map[]
      ensures settings == old(settings)
    {
      conversations := map[];
    }

    /** `getSettings`: the stored row, or the defaults when there is none. */
    method GetSettings() returns (s: Settings)
      requires Valid()
      ensures SettingsKey in settings ==> s == settings[SettingsKey]
      ensures SettingsKey !in settings ==> s == Settings(map[], "gpt-3.5-turbo", "dark")
    {
      s := if SettingsKey in settings then settings[SettingsKey] else DefaultSettings;
    }

    /** `saveSettings`: read the current settings, merge the patch over them and
        write the result back as the one row. */
    method SaveSettings(patch: SettingsPatch)
      requires Valid()
      modifies this
      ensures Valid()
      ensures settings == map[SettingsKey := Merge(SettingsOrDefault(old(settings)), patch)]
      ensures settings.Keys == {SettingsKey} && |settings| == 1
      ensures conversations == old(conversations)
    {
      var current := GetSettings();
      settings := settings[SettingsKey := Merge(current, patch)];
    }

    /** `clearAllData`: empties both tables. */
    method ClearAllData()
      requires Valid()
      modifies this
      ensures Valid()
      ensures conversations == map[] && settings == map[]
      ensures SettingsOrDefault(settings) == DefaultSettings
    {
      conversations := map[];
      settings := map[];
    }
  }

  // ---------------------------------------------------------------------------
  // Properties of the specification

  /** The empty patch changes nothing; saving the same patch twice is saving it once;
      two saves in a row are one save of the combined patch. */
  lemma MergeAlgebra(s: Settings, p: SettingsPatch, q: SettingsPatch)
    ensures Merge(s, EmptyPatch) == s
    ensures Merge(Merge(s, p), p) == Merge(s, p)
    ensures Merge(Merge(s, p), q) == Merge(s, Then(p, q))
  {
  }

  /** Saving `{defaultModel}` on an empty table, then reading, gives the
      defaults with only the model changed. */
  lemma SaveSettingsOnEmptyTable(model: string)
    ensures SettingsOrDefault(map[SettingsKey := Merge(SettingsOrDefault(map[]), SettingsPatch(None, Some(model), None))])
            == Settings(map[], model, "dark")
  {
  }

  /** Strict newest-first order: a listing never puts an older conversation
      before a newer one, and conversations saved with increasing `createdAt`
      come back in strictly decreasing `createdAt`. */
  lemma ListingOrder(r: seq<Conversation>, table: map<string, Conversation>)
    requires IsListing(r, table)
    ensures forall i, j :: 0 <= i < j < |r| ==> r[i].createdAt >= r[j].createdAt
    ensures forall i, j :: 0 <= i < j < |r| ==> Newer(r[i], r[j])
  {
    NewestFirstByDate(r);
    NewerChain(r);
  }

  /** Saving and then loading: a listing holds exactly the conversations the
      table stores, so a saved conversation is listed and a deleted id is not. */
  lemma ListingContents(r: seq<Conversation>, table: map<string, Conversation>)
    requires IsListing(r, table)
    ensures forall c :: c in r <==> c.id in table && table[c.id] == c
  {
    IdsHaveEntries(r);
  }

  lemma {:induction false} NewerChain(r: seq<Conversation>)
    requires NewestFirst(r)
    ensures forall i, j :: 0 <= i < j < |r| ==> Newer(r[i], r[j])
  {
    if |r| > 1 {
      NewerChain(r[1..]);
      forall i, j | 0 <= i < j < |r| ensures Newer(r[i], r[j]) {
        if i > 0 {
          assert r[i] == r[1..][i - 1] && r[j] == r[1..][j - 1];
        } else if j > 1 {
          assert r[1] == r[1..][0] && r[j] == r[1..][j - 1];
          NewerTransitive(r[0], r[1], r[j]);
        }
      }
    }
  }

  lemma NewerTransitive(x: Conversation, y: Conversation, z: Conversation)
    requires Newer(x, y) && Newer(y, z)
    ensures Newer(x, z)
  {
    if x.createdAt == y.createdAt && y.createdAt == z.createdAt {
      IdBeforeTransitive(z.id, y.id, x.id);
    }
  }
}
