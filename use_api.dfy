/**
 * The `useApi` store of src/lib/useApi.ts: four fixed tables of named
 * implementations (speech, chat-history store, chat backend, Live2D loader)
 * and one current selection per slot.
 */
module UseApi {
  import opened Wrappers
  import opened Registry

  // Implementations are functions in the source, and every slot's type has
  // many of them; here each is an opaque identity, compared with `==` as
  // `===` compares function references. The registered ones come from
  // modules that are not part of this model.
  datatype SpeakApi = SpeakApi(id: nat)
  datatype LoadChat = LoadChat(id: nat)
  datatype SaveChat = SaveChat(id: nat)
  datatype DeleteChat = DeleteChat(id: nat)
  datatype ChatApi = ChatApi(id: nat)
  datatype LoadLive2d = LoadLive2d(id: nat)

  const SpeakBrowser: SpeakApi := SpeakApi(0)
  const LoadChatBrowser: LoadChat := LoadChat(0)
  const SaveChatBrowser: SaveChat := SaveChat(0)
  const DeleteChatBrowser: DeleteChat := DeleteChat(0)
  const ChatOllama: ChatApi := ChatApi(0)
  const Live2dXyz: LoadLive2d := LoadLive2d(0)

  /** The three functions of one chat-history store entry. */
  datatype StoreApi = StoreApi(load: LoadChat, save: SaveChat, delete: DeleteChat)

  const Off: string := "关闭"
  const WebSpeech: string := "Web Speech API"

  /** Speech: the "off" entry registers `null`. */
  const SpeakApiList: seq<Entry<Option<SpeakApi>>> :=
    [Entry(Off, None), Entry(WebSpeech, Some(SpeakBrowser))]
  const StoreApiList: seq<Entry<StoreApi>> :=
    [Entry("IndexedDB", StoreApi(LoadChatBrowser, SaveChatBrowser, DeleteChatBrowser))]
  const ChatApiList: seq<Entry<ChatApi>> := [Entry("Ollama", ChatOllama)]
  const Live2dList: seq<Entry<LoadLive2d>> := [Entry("小叶子", Live2dXyz)]

  function GetSpeakApiList(): (r: seq<string>)
    ensures r == [Off, WebSpeech]
  {
    Names(SpeakApiList)
  }

  function GetStoreApiList(): (r: seq<string>)
    ensures r == ["IndexedDB"]
  {
    Names(StoreApiList)
  }

  function GetChatApiList(): (r: seq<string>)
    ensures r == ["Ollama"]
  {
    Names(ChatApiList)
  }

  function GetLive2dList(): (r: seq<string>)
    ensures r == ["小叶子"]
  {
    Names(Live2dList)
  }

  /** The store table seen through `load` alone, as `getCurrentStoreApi` searches it. */
  function Loads(table: seq<Entry<StoreApi>>): (r: seq<Entry<LoadChat>>)
    ensures |r| == |table|
    ensures forall i :: 0 <= i < |table| ==> r[i] == Entry(table[i].name, table[i].api.load)
  {
    if table == [] then [] else [Entry(table[0].name, table[0].api.load)] + Loads(table[1..])
  }

  lemma RegisteredLoad(table: seq<Entry<StoreApi>>, store: StoreApi)
    requires Registered(table, store)
    ensures Registered(Loads(table), store.load)
  {
    var i :| 0 <= i < |table| && table[i].api == store;
    assert Loads(table)[i].api == store.load;
  }

  /**
   * The speech implementation in force after `setSpeakApi(name)` as written:
   * the first entry named `name` is taken only when its implementation is
   * truthy, and the `null` of the off entry is not.
   */
  function SpeakAfter(current: Option<SpeakApi>, name: string): (r: Option<SpeakApi>)
    ensures name !in GetSpeakApiList() ==> r == current
    ensures forall i :: IsFirstNamed(SpeakApiList, name, i) ==>
      r == (if SpeakApiList[i].api.Some? then SpeakApiList[i].api else current)
    ensures r == current || r.Some?
    ensures Registered(SpeakApiList, current) ==> Registered(SpeakApiList, r)
  {
    match FindByName(SpeakApiList, name)
    case None => current
    case Some(i) => if SpeakApiList[i].api.Some? then SpeakApiList[i].api else current
  }

  /** The speech implementation after a series of `setSpeakApi` calls. */
  function SpeakAfterAll(current: Option<SpeakApi>, names: seq<string>): Option<SpeakApi>
    decreases |names|
  {
    if names == [] then current else SpeakAfterAll(SpeakAfter(current, names[0]), names[1..])
  }

  /** Selecting the off entry changes nothing. */
  lemma SpeakOffIgnored(current: Option<SpeakApi>)
    ensures SpeakAfter(current, Off) == current
  {
    assert FindByName(SpeakApiList, Off) == Some(0);
  }

  /** Once speech is on, no sequence of `setSpeakApi` calls turns it off. */
  lemma {:induction false} SpeakStaysOn(current: Option<SpeakApi>, names: seq<string>)
    requires current.Some?
    ensures SpeakAfterAll(current, names).Some?
    decreases |names|
  {
    if names != [] {
      SpeakStaysOn(SpeakAfter(current, names[0]), names[1..]);
    }
  }

  /**
   * The evidently intended `setSpeakApi`: any registered entry, the off
   * entry included, becomes current.
   */
  function SpeakIntended(current: Option<SpeakApi>, name: string): (r: Option<SpeakApi>)
    ensures name !in GetSpeakApiList() ==> r == current
    ensures Registered(SpeakApiList, current) ==> Registered(SpeakApiList, r)
  {
    Select(SpeakApiList, name, current)
  }

  /** With the intended setter the off entry does switch speech off. */
  lemma SpeakIntendedSwitches(current: Option<SpeakApi>)
    ensures SpeakIntended(current, Off) == None
    ensures SpeakIntended(current, WebSpeech) == Some(SpeakBrowser)
  {
    SelectFirstNamed(SpeakApiList, Off, current, 0);
    SelectFirstNamed(SpeakApiList, WebSpeech, current, 1);
  }

  /** With the intended setter, every name from the list round-trips through the current name. */
  lemma SpeakIntendedRoundTrip(current: Option<SpeakApi>, name: string)
    requires name in GetSpeakApiList()
    ensures NameOf(SpeakApiList, SpeakIntended(current, name)) == Some(name)
  {
    SelectThenNameOf(SpeakApiList, name, current);
  }

  /** The store: one field per implementation, updated in place by the setters. */
  class ApiStore {
    var speak: Option<SpeakApi>
    var loadChat: LoadChat
    var saveChat: SaveChat
    var deleteChat: DeleteChat
    var chat: ChatApi
    var loadLive2d: LoadLive2d

    /** The current chat-history functions, as one entry's triple. */
    function Store(): StoreApi
      reads this
    {
      StoreApi(loadChat, saveChat, deleteChat)
    }

    /**
     * Every current field is an implementation from its own table; the
     * three store functions all come from the same entry.
     */
    ghost predicate Valid()
      reads this
    {
      && Registered(SpeakApiList, speak)
      && Registered(StoreApiList, Store())
      && Registered(ChatApiList, chat)
      && Registered(Live2dList, loadLive2d)
    }

    /** The initial state: the first entry of every table. */
    constructor ()
      ensures Valid()
      ensures speak == SpeakApiList[0].api && speak.None?
      ensures Store() == StoreApiList[0].api
      ensures chat == ChatApiList[0].api
      ensures loadLive2d == Live2dList[0].api
    {
      speak := SpeakApiList[0].api;
      loadChat := StoreApiList[0].api.load;
      saveChat := StoreApiList[0].api.save;
      deleteChat := StoreApiList[0].api.delete;
      chat := ChatApiList[0].api;
      loadLive2d := Live2dList[0].api;
      new;
      assert Registered(SpeakApiList, speak) by { assert SpeakApiList[0].api == speak; }
      assert Registered(StoreApiList, Store()) by { assert StoreApiList[0].api == Store(); }
      assert Registered(ChatApiList, chat) by { assert ChatApiList[0].api == chat; }
      assert Registered(Live2dList, loadLive2d) by { assert Live2dList[0].api == loadLive2d; }
    }

    method SetSpeakApi(name: string)
      modifies this
      ensures old(Valid()) ==> Valid()
      ensures speak == SpeakAfter(old(speak), name)
      ensures old(speak).Some? ==> speak.Some?
      ensures old(Valid()) && name == WebSpeech ==> GetCurrentSpeakApi() == WebSpeech
      ensures Store() == old(Store()) && chat == old(chat) && loadLive2d == old(loadLive2d)
    {
      var found := FindByName(SpeakApiList, name);
      if found.Some? && SpeakApiList[found.value].api.Some? {
        speak := SpeakApiList[found.value].api;
      }
      if name == WebSpeech {
        assert IsFirstNamed(SpeakApiList, name, 1);
        assert IsFirstWith(SpeakApiList, speak, 1);
        NameOfFirstWith(SpeakApiList, speak, 1);
      }
    }

    method SetStoreApi(name: string)
      modifies this
      ensures old(Valid()) ==> Valid()
      ensures Store() == Select(StoreApiList, name, old(Store()))
      ensures speak == old(speak) && chat == old(chat) && loadLive2d == old(loadLive2d)
      ensures name in GetStoreApiList() ==> Registered(StoreApiList, Store())
      ensures old(Valid()) && name in GetStoreApiList() ==> GetCurrentStoreApi() == name
    {
      var found := FindByName(StoreApiList, name);
      if found.Some? {
        var entry := StoreApiList[found.value];
        loadChat, saveChat, deleteChat := entry.api.load, entry.api.save, entry.api.delete;
      }
      if name in GetStoreApiList() {
        SelectFirstNamed(StoreApiList, name, old(Store()), found.value);
        assert IsFirstWith(Loads(StoreApiList), loadChat, found.value);
        NameOfFirstWith(Loads(StoreApiList), loadChat, found.value);
      }
    }

    method SetChatApi(name: string)
      modifies this
      ensures old(Valid()) ==> Valid()
      ensures chat == Select(ChatApiList, name, old(chat))
      ensures speak == old(speak) && Store() == old(Store()) && loadLive2d == old(loadLive2d)
      ensures name in GetChatApiList() ==> Registered(ChatApiList, chat)
      ensures old(Valid()) && name in GetChatApiList() ==> GetCurrentChatApi() == name
    {
      var found := FindByName(ChatApiList, name);
      if found.Some? {
        chat := ChatApiList[found.value].api;
      }
      if name in GetChatApiList() {
        SelectThenNameOf(ChatApiList, name, old(chat));
      }
    }

    method SetLive2d(name: string)
      modifies this
      ensures old(Valid()) ==> Valid()
      ensures loadLive2d == Select(Live2dList, name, old(loadLive2d))
      ensures speak == old(speak) && Store() == old(Store()) && chat == old(chat)
      ensures name in GetLive2dList() ==> Registered(Live2dList, loadLive2d)
      ensures old(Valid()) && name in GetLive2dList() ==> GetCurrentLive2d() == name
    {
      var found := FindByName(Live2dList, name);
      if found.Some? {
        loadLive2d := Live2dList[found.value].api;
      }
      if name in GetLive2dList() {
        SelectThenNameOf(Live2dList, name, old(loadLive2d));
      }
    }

    /** The name of the first speech entry identical to the current one. */
    function GetCurrentSpeakApi(): (r: string)
      reads this
      requires Valid()
      ensures r in GetSpeakApiList()
      ensures exists i :: IsFirstWith(SpeakApiList, speak, i) && SpeakApiList[i].name == r
    {
      NameOf(SpeakApiList, speak).value
    }

    /** The name of the first store entry whose `load` is the current one. */
    function GetCurrentStoreApi(): (r: string)
      reads this
      requires Valid()
      ensures r in GetStoreApiList()
      ensures exists i :: IsFirstWith(Loads(StoreApiList), loadChat, i) && StoreApiList[i].name == r
    {
      RegisteredLoad(StoreApiList, Store());
      NameOf(Loads(StoreApiList), loadChat).value
    }

    function GetCurrentChatApi(): (r: string)
      reads this
      requires Valid()
      ensures r in GetChatApiList()
      ensures exists i :: IsFirstWith(ChatApiList, chat, i) && ChatApiList[i].name == r
    {
      NameOf(ChatApiList, chat).value
    }

    function GetCurrentLive2d(): (r: string)
      reads this
      requires Valid()
      ensures r in GetLive2dList()
      ensures exists i :: IsFirstWith(Live2dList, loadLive2d, i) && Live2dList[i].name == r
    {
      NameOf(Live2dList, loadLive2d).value
    }
  }

  /** Speech switched on and then "off" still reports the Web Speech API. */
  method SpeechCannotBeSwitchedOff() returns (name: string)
    ensures name == WebSpeech
  {
    var store := new ApiStore();
    assert GetSpeakApiList()[1] == WebSpeech;
    store.SetSpeakApi(WebSpeech);
    store.SetSpeakApi(Off);
    name := store.GetCurrentSpeakApi();
  }
}
