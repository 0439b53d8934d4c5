/** The media-server client: the type-code mapping, the two cached fields of
    the client object (the server's machine id and the label list of a library
    section), the label operations that read and refresh that cache, the
    defaulting of item updates and the two-call creation of smart collections.

    The server is an oracle `respond(n, call)`: the response to the n-th call
    the client makes, `None` when the HTTP call failed (the client then sees
    `null`). Indexing by position lets a response depend on what was sent
    before, for instance a label list fetched after a label was added. */
module Plex {
  import opened Wrappers

  /** Numeric item-type codes of the media server. */
  const Movie := 1
  const Series := 2
  const Collection := 18

  /** A scalar field of a response or of an update: a number or a string. */
  datatype Value = Num(n: int) | Str(s: string)

  /** A JavaScript object with unknown keys. */
  type Dict = map<string, Value>

  /** JavaScript truthiness of a scalar: 0 and "" are falsy. */
  predicate Truthy(v: Value) {
    match v
    case Num(n) => n != 0
    case Str(s) => s != ""
  }

  /** The `MediaContainer` block of a response (only the fields the client reads). */
  datatype Container = Container(machineIdentifier: Option<string>, directory: Option<seq<Dict>>, metadata: Option<seq<Dict>>)

  /** The body of a response. */
  datatype Data = Data(mediaContainer: Option<Container>)

  /** The HTTP calls the client makes; strings marked "encoded" have been
      through `encodeURIComponent`. */
  datatype Call =
    | Capabilities
    | LibrarySections
    /** with `includeCollections=1` and `includeExternalMedia=1` */
    | SectionCollections(sectionId: int)
    | SectionLabels(sectionId: int)
    | SectionItems(sectionId: int)
    /** title and query encoded. */
    | CreateCollection(itemType: int, title: string, smart: int, machineId: string, sectionId: int, sort: string, query: string)
    | UpdateItems(sectionId: int, params: Dict)

  /** The item-type code for a type name: "show" is a series, "collection" a
      collection, and every other name (among them "movie") a movie. */
  function GetPlexTypeCode(typeString: string): (code: int)
    ensures code == Series <==> typeString == "show"
    ensures code == Collection <==> typeString == "collection"
    ensures code == Movie <==> typeString != "show" && typeString != "collection"
  {
    match typeString
    case "show" => Series
    case "movie" => Movie
    case "collection" => Collection
    case _ => Movie
  }

  /* ---- Reading nested lists out of responses ---- */

  /** The container of a response, when the call succeeded and it has one. */
  function ContainerOf(d: Option<Data>): Option<Container> {
    if d.Some? then d.value.mediaContainer else None
  }

  /** `MediaContainer.Directory` when present, else `[]`. */
  function DirectoryOf(d: Option<Data>): (entries: seq<Dict>)
    ensures ContainerOf(d).Some? && ContainerOf(d).value.directory.Some? ==> entries == ContainerOf(d).value.directory.value
    ensures ContainerOf(d).None? || ContainerOf(d).value.directory.None? ==> entries == []
  {
    var c := ContainerOf(d);
    if c.Some? && c.value.directory.Some? then c.value.directory.value else []
  }

  /** `MediaContainer.Metadata` when present, else `[]`. */
  function MetadataOf(d: Option<Data>): (items: seq<Dict>)
    ensures ContainerOf(d).Some? && ContainerOf(d).value.metadata.Some? ==> items == ContainerOf(d).value.metadata.value
    ensures ContainerOf(d).None? || ContainerOf(d).value.metadata.None? ==> items == []
  {
    var c := ContainerOf(d);
    if c.Some? && c.value.metadata.Some? then c.value.metadata.value else []
  }

  /** The label list stored by `getLabels`: `Directory` when it is present and
      non-empty, else `[]`. */
  function LabelsOf(d: Option<Data>): (labels: seq<Dict>)
    ensures ContainerOf(d).Some? && ContainerOf(d).value.directory.Some? ==> labels == ContainerOf(d).value.directory.value
    ensures ContainerOf(d).None? || ContainerOf(d).value.directory.None? ==> labels == []
  {
    var c := ContainerOf(d);
    if c.Some? && c.value.directory.Some? && |c.value.directory.value| != 0 then c.value.directory.value else []
  }

  /** The extra non-empty test of `getLabels` changes nothing: an empty
      `Directory` gives `[]` either way, so the label cache holds exactly the
      list the section lister would return. */
  lemma LabelsAreDirectory(d: Option<Data>)
    ensures LabelsOf(d) == DirectoryOf(d)
  {
  }

  /** The machine id a capabilities response gives: its `machineIdentifier`,
      or "" when the response, its container or the field is missing. */
  function MachineIdOf(d: Option<Data>): (id: string)
    ensures ContainerOf(d).Some? && ContainerOf(d).value.machineIdentifier.Some? ==> id == ContainerOf(d).value.machineIdentifier.value
    ensures ContainerOf(d).None? || ContainerOf(d).value.machineIdentifier.None? ==> id == ""
  {
    var c := ContainerOf(d);
    if c.Some? && c.value.machineIdentifier.Some? then c.value.machineIdentifier.value else ""
  }

  /* ---- Labels ---- */

  /** ASCII lower-casing of one character. */
  function LowerChar(c: char): char {
    if 'A' <= c <= 'Z' then (c as int + 32) as char else c
  }

  /** `toLowerCase` on the ASCII letters. */
  function Lower(s: string): (t: string)
    ensures |t| == |s|
    ensures forall i :: 0 <= i < |s| ==> !('A' <= t[i] <= 'Z')
    ensures forall i :: 0 <= i < |s| ==> ('A' <= s[i] <= 'Z' ==> t[i] as int == s[i] as int + 32)
    ensures forall i :: 0 <= i < |s| ==> (!('A' <= s[i] <= 'Z') ==> t[i] == s[i])
  {
    seq(|s|, i requires 0 <= i < |s| => LowerChar(s[i]))
  }

  /** The entry matches lodash's `{ title: title }` pattern. */
  predicate HasTitle(entry: Dict, title: string) {
    "title" in entry && entry["title"] == Str(title)
  }

  /** lodash `_.find(entries, { title: title })`: the position of the first
      entry with that title. */
  function FindByTitle(entries: seq<Dict>, title: string): (i: Option<nat>)
    ensures i.Some? ==> i.value < |entries| && HasTitle(entries[i.value], title)
    ensures i.Some? ==> forall j :: 0 <= j < i.value ==> !HasTitle(entries[j], title)
    ensures i.None? <==> forall j :: 0 <= j < |entries| ==> !HasTitle(entries[j], title)
    decreases |entries|
  {
    if entries == [] then None
    else if HasTitle(entries[0], title) then Some(0)
    else
      match FindByTitle(entries[1..], title)
      case None => None
      case Some(k) => Some(k + 1)
  }

  /** The label cache knows `title` (the test `addLabelToItem` uses; an
      unloaded cache knows nothing). */
  function Knows(labels: Option<seq<Dict>>, title: string): (known: bool)
    ensures known <==> labels.Some? && exists j :: 0 <= j < |labels.value| && HasTitle(labels.value[j], title)
  {
    labels.Some? && FindByTitle(labels.value, title).Some?
  }

  /** The key `getKeyForLabel` returns for the already lower-cased `name`
      from a loaded cache: the `key` of the first entry titled `name`, and
      nothing when the label is empty, the cache is empty, no entry has that
      title, or that entry's key is missing or falsy. */
  function KeyFor(labels: seq<Dict>, name: string): (key: Option<Value>)
    ensures key.Some? <==>
              && name != ""
              && FindByTitle(labels, name).Some?
              && "key" in labels[FindByTitle(labels, name).value]
              && Truthy(labels[FindByTitle(labels, name).value]["key"])
    ensures key.Some? ==> key.value == labels[FindByTitle(labels, name).value]["key"]
    ensures name == "" || labels == [] ==> key.None?
  {
    if name != "" && labels != [] then
      match FindByTitle(labels, name)
      case None => None
      case Some(i) => if "key" in labels[i] && Truthy(labels[i]["key"]) then Some(labels[i]["key"]) else None
    else None
  }

  /** The update dictionary `addLabelToItem` builds. */
  function AddLabelParams(name: string, itemType: int): Dict {
    map["label[0].tag.tag" := Str(name), "label.locked" := Num(1), "type" := Num(itemType)]
  }

  /** The update dictionary `removeLabelFromItem` builds. */
  function RemoveLabelParams(name: string, itemType: int): Dict {
    map["label[].tag.tag-" := Str(name), "label.locked" := Num(1), "type" := Num(itemType)]
  }

  /* ---- Item updates ---- */

  /** The keys `updateItemDetails` always sets. */
  const DefaultedKeys: set<string> := {"type", "id", "includeExternalMedia"}

  /** `updateItemDetails`'s defaulting of the update dictionary: a falsy or
      missing `type` becomes a movie, `id` is the item, `includeExternalMedia`
      is 1, and every other key is left as given. */
  function WithItemDefaults(updates: Dict, itemId: Value): (sent: Dict)
    ensures sent.Keys == updates.Keys + DefaultedKeys
    ensures "type" in updates && Truthy(updates["type"]) ==> sent["type"] == updates["type"]
    ensures !("type" in updates && Truthy(updates["type"])) ==> sent["type"] == Num(Movie)
    ensures sent["id"] == itemId && sent["includeExternalMedia"] == Num(1)
    ensures forall k :: k in updates && k !in DefaultedKeys ==> sent[k] == updates[k]
  {
    var kind := if "type" in updates && Truthy(updates["type"]) then updates["type"] else Num(Movie);
    updates["type" := kind]["id" := itemId]["includeExternalMedia" := Num(1)]
  }

  /** What adding or removing a label sends as the parameters of its update
      call: the lower-cased label under that operation's parameter name,
      locked, typed `itemType` (a movie when `itemType` is 0, since
      `updateItemDetails` treats 0 as missing), the item id,
      `includeExternalMedia = 1`, and the client token. */
  lemma LabelUpdateSends(api: PlexAPI, sectionId: int, name: string, itemType: int, itemId: int)
    ensures var call := api.UpdateCallFor(sectionId, Num(itemId), AddLabelParams(Lower(name), itemType));
      && call.UpdateItems? && call.sectionId == sectionId
      && call.params["label[0].tag.tag"] == Str(Lower(name))
      && call.params["label.locked"] == Num(1)
      && call.params["type"] == Num(if itemType != 0 then itemType else Movie)
      && call.params["id"] == Num(itemId)
      && call.params["includeExternalMedia"] == Num(1)
      && call.params["X-Plex-Token"] == Str(api.token)
      && call.params.Keys == {"label[0].tag.tag", "label.locked", "type", "id", "includeExternalMedia", "X-Plex-Token"}
    ensures var call := api.UpdateCallFor(sectionId, Num(itemId), RemoveLabelParams(Lower(name), itemType));
      && call.UpdateItems? && call.sectionId == sectionId
      && call.params["label[].tag.tag-"] == Str(Lower(name))
      && call.params["label.locked"] == Num(1)
      && call.params["type"] == Num(if itemType != 0 then itemType else Movie)
      && call.params["id"] == Num(itemId)
      && call.params["includeExternalMedia"] == Num(1)
      && call.params["X-Plex-Token"] == Str(api.token)
      && call.params.Keys == {"label[].tag.tag-", "label.locked", "type", "id", "includeExternalMedia", "X-Plex-Token"}
  {
  }


  /** An update dictionary the caller hands over; it is defaulted in place. */
  class ItemUpdates {
    var fields: Dict

    constructor (fields: Dict)
      ensures this.fields == fields
    {
      this.fields := fields;
    }
  }

  /* ---- Smart collections ---- */

  /** The options for a new smart collection; `sort` and `smart` are
      defaulted in place. */
  class CollectionOptions {
    const sectionId: int
    var smart: Option<int>
    const title: string
    const titleSort: Option<string>
    const itemType: int
    var sort: Option<string>
    const query: string

    constructor (sectionId: int, smart: Option<int>, title: string, titleSort: Option<string>, itemType: int, sort: Option<string>, query: string)
      ensures this.sectionId == sectionId && this.smart == smart && this.title == title && this.titleSort == titleSort
      ensures this.itemType == itemType && this.sort == sort && this.query == query
    {
      this.sectionId, this.smart, this.title, this.titleSort := sectionId, smart, title, titleSort;
      this.itemType, this.sort, this.query := itemType, sort, query;
    }
  }

  /** A second call is needed to set the sort title: it is given, non-empty
      and not the title itself. */
  predicate NeedsTitleSort(title: string, titleSort: Option<string>) {
    titleSort.Some? && titleSort.value != "" && titleSort.value != title
  }

  /** The update that sets a collection's sort title (already encoded). */
  function TitleSortParams(encodedTitleSort: string): Dict {
    map["type" := Num(Collection), "titleSort.value" := Str(encodedTitleSort), "titleSort.locked" := Num(1)]
  }

  /** The `ratingKey` of the first created item, when `Metadata` is non-empty
      and that key is truthy. */
  function RatingKeyOf(d: Option<Data>): (key: Option<Value>)
    ensures key.Some? <==> |MetadataOf(d)| != 0 && "ratingKey" in MetadataOf(d)[0] && Truthy(MetadataOf(d)[0]["ratingKey"])
    ensures key.Some? ==> key.value == MetadataOf(d)[0]["ratingKey"]
  {
    var items := MetadataOf(d);
    if |items| != 0 && "ratingKey" in items[0] && Truthy(items[0]["ratingKey"]) then Some(items[0]["ratingKey"]) else None
  }

  /** How `createSmartCollection` ends: with a value, or by throwing because
      `Metadata[0]` was read from a container that has no `Metadata`. */
  datatype Outcome = Returned(value: Option<Dict>) | TypeError

  /** `data?.MediaContainer?.Metadata[0]`: nothing for a failed call or a
      missing container, a TypeError for a container without `Metadata`,
      and the first item (if any) otherwise. */
  function FirstCreated(d: Option<Data>): (out: Outcome)
    ensures out == TypeError <==> ContainerOf(d).Some? && ContainerOf(d).value.metadata.None?
    ensures out.Returned? && out.value.Some? ==> |MetadataOf(d)| != 0 && out.value.value == MetadataOf(d)[0]
    ensures out.Returned? && out.value.None? ==> MetadataOf(d) == []
  {
    var c := ContainerOf(d);
    if c.None? then Returned(None)
    else if c.value.metadata.None? then TypeError
    else if |c.value.metadata.value| == 0 then Returned(None)
    else Returned(Some(c.value.metadata.value[0]))
  }

  /* ---- The client object ---- */

  /** The client singleton with its two caches and the log of calls it made. */
  class PlexAPI {
    /** The server oracle: the response to the n-th call. */
    const respond: (nat, Call) -> Option<Data>
    /** `encodeURIComponent`, kept opaque. */
    const encodeUri: string -> string
    /** The API token every call adds to its parameters. */
    const token: string
    /** Every call made so far, in order. */
    var calls: seq<Call>
    /** The server's machine id; "" until known. */
    var machineId: string
    /** The label list of a section; `None` until loaded. */
    var labels: Option<seq<Dict>>

    constructor (respond: (nat, Call) -> Option<Data>, encodeUri: string -> string, token: string)
      ensures this.respond == respond && this.encodeUri == encodeUri && this.token == token
      ensures calls == [] && machineId == "" && labels == None
    {
      this.respond, this.encodeUri, this.token := respond, encodeUri, token;
      calls, machineId, labels := [], "", None;
    }

    /** The response the next call `c` would get. */
    function Next(c: Call): Option<Data>
      reads this
    {
      respond(|calls|, c)
    }

    /** One HTTP call to the server. */
    method CallApi(c: Call) returns (d: Option<Data>)
      modifies this
      ensures calls == old(calls) + [c] && d == old(Next(c))
      ensures machineId == old(machineId) && labels == old(labels)
    {
      d := respond(|calls|, c);
      calls := calls + [c];
    }

    /** The capabilities of the server (its root document). */
    method GetCapabilities() returns (d: Option<Data>)
      modifies this
      ensures calls == old(calls) + [Capabilities] && d == old(Next(Capabilities))
      ensures machineId == old(machineId) && labels == old(labels)
    {
      d := CallApi(Capabilities);
    }

    /** The machine id, fetched only while it is not known; a response
        without one leaves it "", so the next call asks again. */
    method GetMachineId() returns (id: string)
      modifies this
      ensures old(machineId) != "" ==> calls == old(calls) && machineId == old(machineId)
      ensures old(machineId) == "" ==>
                calls == old(calls) + [Capabilities] && machineId == MachineIdOf(old(Next(Capabilities)))
      ensures id == machineId && labels == old(labels)
    {
      if machineId == "" {
        var data := GetCapabilities();
        machineId := MachineIdOf(data);
      }
      id := machineId;
    }

    /** All library sections. */
    method GetSections() returns (sections: seq<Dict>)
      modifies this
      ensures calls == old(calls) + [LibrarySections] && sections == DirectoryOf(old(Next(LibrarySections)))
      ensures machineId == old(machineId) && labels == old(labels)
    {
      var data := CallApi(LibrarySections);
      sections := DirectoryOf(data);
    }

    /** All collections of a section. */
    method GetCollections(sectionId: int) returns (collections: seq<Dict>)
      modifies this
      ensures calls == old(calls) + [SectionCollections(sectionId)]
      ensures collections == MetadataOf(old(Next(SectionCollections(sectionId))))
      ensures machineId == old(machineId) && labels == old(labels)
    {
      var data := CallApi(SectionCollections(sectionId));
      collections := MetadataOf(data);
    }

    /** All top-level items of a section. */
    method GetAllItems(sectionId: int) returns (items: seq<Dict>)
      modifies this
      ensures calls == old(calls) + [SectionItems(sectionId)]
      ensures items == MetadataOf(old(Next(SectionItems(sectionId))))
      ensures machineId == old(machineId) && labels == old(labels)
    {
      var data := CallApi(SectionItems(sectionId));
      items := MetadataOf(data);
    }

    /** Loads the label cache from the server and returns it. */
    method GetLabels(sectionId: int) returns (result: seq<Dict>)
      modifies this
      ensures calls == old(calls) + [SectionLabels(sectionId)]
      ensures labels == Some(LabelsOf(old(Next(SectionLabels(sectionId))))) && result == labels.value
      ensures machineId == old(machineId)
    {
      var data := CallApi(SectionLabels(sectionId));
      labels := Some(LabelsOf(data));
      result := labels.value;
    }

    /** The key of a label: the cache is loaded only when it is not loaded
        yet (an empty list counts as loaded), then searched for the
        lower-cased label. */
    method GetKeyForLabel(sectionId: int, name: string) returns (key: Option<Value>)
      modifies this
      ensures old(labels).Some? ==> calls == old(calls) && labels == old(labels)
      ensures old(labels).None? ==>
                calls == old(calls) + [SectionLabels(sectionId)] && labels == Some(LabelsOf(old(Next(SectionLabels(sectionId)))))
      ensures labels.Some? && key == KeyFor(labels.value, Lower(name))
      ensures machineId == old(machineId)
    {
      var lowered := Lower(name);
      if labels.None? {
        var _ := GetLabels(sectionId);
      }
      key := KeyFor(labels.value, lowered);
    }

    /** The parameters of a call once the client has added its token to them. */
    function Signed(params: Dict): (signed: Dict)
      ensures signed.Keys == params.Keys + {"X-Plex-Token"} && signed["X-Plex-Token"] == Str(token)
      ensures forall k :: k in params && k != "X-Plex-Token" ==> signed[k] == params[k]
    {
      params["X-Plex-Token" := Str(token)]
    }

    /** The update call `updateItemDetails` sends for `updates` and `itemId`. */
    function UpdateCallFor(sectionId: int, itemId: Value, updates: Dict): Call {
      UpdateItems(sectionId, Signed(WithItemDefaults(updates, itemId)))
    }

    /** Updates an item: defaults the caller's dictionary in place, and sends
        that same dictionary as the parameters, into which the call writes the
        token, so that the caller's dictionary holds the token afterwards. */
    method UpdateItemDetails(sectionId: int, itemId: Value, updates: ItemUpdates) returns (result: Option<Data>)
      modifies this, updates
      ensures updates.fields == Signed(WithItemDefaults(old(updates.fields), itemId))
      ensures calls == old(calls) + [UpdateItems(sectionId, updates.fields)]
      ensures result == old(Next(UpdateCallFor(sectionId, itemId, updates.fields)))
      ensures machineId == old(machineId) && labels == old(labels)
    {
      updates.fields := WithItemDefaults(updates.fields, itemId);
      updates.fields := Signed(updates.fields);
      result := CallApi(UpdateItems(sectionId, updates.fields));
    }

    /** Sends a label update, then reloads the cache when it does not know
        the lower-cased label. */
    method SendLabelUpdate(sectionId: int, itemId: int, lowered: string, params: Dict) returns (result: Option<Data>)
      modifies this
      ensures var first := UpdateCallFor(sectionId, Num(itemId), params);
        && result == old(Next(first))
        && (Knows(old(labels), lowered) ==> calls == old(calls) + [first] && labels == old(labels))
        && (!Knows(old(labels), lowered) ==>
              && calls == old(calls) + [first, SectionLabels(sectionId)]
              && labels == Some(LabelsOf(respond(|old(calls)| + 1, SectionLabels(sectionId)))))
      ensures machineId == old(machineId)
    {
      var updates := new ItemUpdates(params);
      result := UpdateItemDetails(sectionId, Num(itemId), updates);
      if !Knows(labels, lowered) {
        var _ := GetLabels(sectionId);
      }
    }

    /** Adds a label to an item. */
    method AddLabelToItem(sectionId: int, itemType: int, itemId: int, name: string) returns (result: Option<Data>)
      modifies this
      ensures var first := UpdateCallFor(sectionId, Num(itemId), AddLabelParams(Lower(name), itemType));
        && result == old(Next(first))
        && (Knows(old(labels), Lower(name)) ==> calls == old(calls) + [first] && labels == old(labels))
        && (!Knows(old(labels), Lower(name)) ==>
              && calls == old(calls) + [first, SectionLabels(sectionId)]
              && labels == Some(LabelsOf(respond(|old(calls)| + 1, SectionLabels(sectionId)))))
      ensures machineId == old(machineId)
    {
      var lowered := Lower(name);
      result := SendLabelUpdate(sectionId, itemId, lowered, AddLabelParams(lowered, itemType));
    }

    /** Removes a label from an item. */
    method RemoveLabelFromItem(sectionId: int, itemType: int, itemId: int, name: string) returns (result: Option<Data>)
      modifies this
      ensures var first := UpdateCallFor(sectionId, Num(itemId), RemoveLabelParams(Lower(name), itemType));
        && result == old(Next(first))
        && (Knows(old(labels), Lower(name)) ==> calls == old(calls) + [first] && labels == old(labels))
        && (!Knows(old(labels), Lower(name)) ==>
              && calls == old(calls) + [first, SectionLabels(sectionId)]
              && labels == Some(LabelsOf(respond(|old(calls)| + 1, SectionLabels(sectionId)))))
      ensures machineId == old(machineId)
    {
      var lowered := Lower(name);
      result := SendLabelUpdate(sectionId, itemId, lowered, RemoveLabelParams(lowered, itemType));
    }

    /** The creation call: the title and the query encoded, `smart = 1`, and
        the server's machine id in the library URI. */
    function CreateCallFor(itemType: int, title: string, sectionId: int, sort: string, query: string, machine: string): Call {
      CreateCollection(itemType, encodeUri(title), 1, machine, sectionId, sort, encodeUri(query))
    }

    /** The second call of a collection creation: sets the sort title (encoded)
        of the collection `collectionKey`, typed as a collection and locked. */
    method SetTitleSort(sectionId: int, collectionKey: Value, titleSort: string) returns (result: Option<Data>)
      modifies this
      ensures calls == old(calls) + [UpdateCallFor(sectionId, collectionKey, TitleSortParams(encodeUri(titleSort)))]
      ensures machineId == old(machineId) && labels == old(labels)
    {
      var updates := new ItemUpdates(TitleSortParams(encodeUri(titleSort)));
      result := UpdateItemDetails(sectionId, collectionKey, updates);
    }

    /** Creates a smart collection: makes sure the machine id is known,
        defaults `sort` and forces `smart = 1` in the caller's options, sends
        the creation call, and when a distinct sort title is wanted sends a
        second update for the created collection, or returns nothing when the
        creation response names no collection. */
    method CreateSmartCollection(options: CollectionOptions) returns (out: Outcome)
      modifies this, options
      ensures options.sort == Some(StringOr(old(options.sort), "titleSort")) && options.smart == Some(1)
      ensures machineId == (if old(machineId) != "" then old(machineId) else MachineIdOf(old(Next(Capabilities))))
      ensures labels == old(labels)
      ensures var before := old(calls) + (if old(machineId) == "" then [Capabilities] else []);
        var create := CreateCallFor(options.itemType, options.title, options.sectionId,
                                    StringOr(old(options.sort), "titleSort"), options.query, machineId);
        var created := respond(|before|, create);
        && (!NeedsTitleSort(options.title, options.titleSort) ==>
              calls == before + [create] && out == FirstCreated(created))
        && (NeedsTitleSort(options.title, options.titleSort) && RatingKeyOf(created).None? ==>
              calls == before + [create] && out == Returned(None))
        && (NeedsTitleSort(options.title, options.titleSort) && RatingKeyOf(created).Some? ==>
              && calls == before + [create, UpdateCallFor(options.sectionId, RatingKeyOf(created).value,
                                                          TitleSortParams(encodeUri(options.titleSort.value)))]
              && out == FirstCreated(created))
    {
      var machine := GetMachineId();
      options.sort := Some(StringOr(options.sort, "titleSort"));
      options.smart := Some(1);
      var create := CreateCallFor(options.itemType, options.title, options.sectionId, options.sort.value, options.query, machine);
      var data := CallApi(create);
      if NeedsTitleSort(options.title, options.titleSort) {
        var collectionKey := RatingKeyOf(data);
        if collectionKey.None? {
          return Returned(None);
        }
        var _ := SetTitleSort(options.sectionId, collectionKey.value, options.titleSort.value);
      }
      out := FirstCreated(data);
    }
  }
}
