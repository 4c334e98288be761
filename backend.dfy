/**
 * LibPinyinBackEnd: the bridge between the input method and the libpinyin
 * conversion library. It creates the Pinyin and Chewing (bopomofo) contexts
 * lazily, translates the configuration into libpinyin settings and keyboard
 * schemes, and debounces saving of the user-learned database.
 *
 * libpinyin itself is out of reach: its calls are recorded as effects in a
 * ghost log, and a context is the record of what the bridge has applied to it.
 */
module LibPinyin {
  import opened Wrappers
  import opened LibPinyinOptions

  /** LIBPINYIN_SAVE_TIMEOUT: the quiet period before a save, and the period of the save task, in seconds. */
  const SaveTimeout: nat := 5 * 60

  /** The system data directory every context is initialised from. */
  const SystemDataDir: string := "/usr/share/libpinyin/data"

  datatype Kind = PinyinKind | ChewingKind

  /** The configuration the bridge reads: option mask and keyboard indices. */
  datatype Config = Config(option: bv32, doublePinyinSchema: int, bopomofoKeyboardMapping: int)

  /**
   * A libpinyin context as the bridge sees it: the directories it was created
   * from and the last settings and keyboard schemes the bridge applied to it
   * (None: never applied).
   */
  datatype Context = Context(
    dataDir: string,
    userDir: Option<string>,
    settings: Option<CustomSettings>,
    doublePinyinScheme: Option<ShuangPinScheme>,
    zhuyinScheme: Option<ZhuYinScheme>)

  /** A conversion instance, drawn from the context of its kind. */
  datatype Instance = Instance(kind: Kind)

  /** Calls that leave the bridge: directory creation and libpinyin's life-cycle and persistence calls. */
  datatype Effect =
    | MakeDir(path: string)
    | Init(kind: Kind, userDir: Option<string>)
    | Alloc(kind: Kind)
    | Free(kind: Kind)
    | Save(kind: Kind)
    | Fini(kind: Kind)

  /** `<home>/.cache/ibus/<leaf>`, the per-scheme user directory. */
  function CacheDir(home: string, leaf: string): string
  {
    home + "/.cache/ibus/" + leaf
  }

  /** How many times pinyin_init was called for `kind`. */
  function InitCount(log: seq<Effect>, kind: Kind): nat
  {
    if log == [] then 0
    else InitCount(log[..|log| - 1], kind) + (if log[|log| - 1].Init? && log[|log| - 1].kind == kind then 1 else 0)
  }

  lemma {:induction false} InitCountAppend(a: seq<Effect>, b: seq<Effect>, kind: Kind)
    ensures InitCount(a + b, kind) == InitCount(a, kind) + InitCount(b, kind)
    decreases |b|
  {
    if b != [] {
      var b' := b[..|b| - 1];
      assert (a + b)[..|a + b| - 1] == a + b';
      InitCountAppend(a, b', kind);
    } else {
      assert a + b == a;
    }
  }

  /** Appending effects that contain no Init of `kind` leaves its count alone. */
  lemma InitCountNoInit(a: seq<Effect>, b: seq<Effect>, kind: Kind)
    requires forall i :: 0 <= i < |b| ==> !(b[i].Init? && b[i].kind == kind)
    ensures InitCount(a + b, kind) == InitCount(a, kind)
  {
    InitCountAppend(a, b, kind);
    InitCountZero(b, kind);
  }

  lemma {:induction false} InitCountZero(b: seq<Effect>, kind: Kind)
    requires forall i :: 0 <= i < |b| ==> !(b[i].Init? && b[i].kind == kind)
    ensures InitCount(b, kind) == 0
    decreases |b|
  {
    if b != [] {
      InitCountZero(b[..|b| - 1], kind);
    }
  }

  /** One Save per existing context, Pinyin first: what saveUserDB calls. */
  function SaveEffects(pinyin: Option<Context>, chewing: Option<Context>): seq<Effect>
  {
    (if pinyin.Some? then [Save(PinyinKind)] else []) + (if chewing.Some? then [Save(ChewingKind)] else [])
  }

  /** One Fini per existing context, Pinyin first: what the destructor calls after any save. */
  function FiniEffects(pinyin: Option<Context>, chewing: Option<Context>): seq<Effect>
  {
    (if pinyin.Some? then [Fini(PinyinKind)] else []) + (if chewing.Some? then [Fini(ChewingKind)] else [])
  }

  /** The settings value the bridge starts from; setFuzzyOptions overwrites all of it. */
  const UnsetSettings: CustomSettings := CustomSettings(false, {})

  class LibPinyinBackEnd {
    /** The numeric values of the option bits the fuzzy table uses. */
    const optionBits: OptionBits

    /** m_timeout_id != 0: a save task is armed. */
    var scheduled: bool
    /** Whole seconds shown by m_timer since it was last started. */
    var elapsed: nat
    var pinyinContext: Option<Context>
    var chewingContext: Option<Context>

    /** Main-loop sources currently calling TimeoutCallback. */
    ghost var armed: nat
    /**
     * The directory creations and libpinyin's init, alloc, free, save and fini
     * calls, in order. Settings and scheme calls are kept only as the last value
     * applied, in the Context record; the GLib timer and source calls as
     * `elapsed`, `scheduled` and `armed`.
     */
    ghost var log: seq<Effect>

    /**
     * The bridge's invariant: one armed source exactly while a task is
     * recorded, and each context initialised once exactly while it exists.
     */
    ghost predicate Valid()
      reads this
    {
      && optionBits.WellFormed()
      && armed == (if scheduled then 1 else 0)
      && InitCount(log, PinyinKind) == (if pinyinContext.Some? then 1 else 0)
      && InitCount(log, ChewingKind) == (if chewingContext.Some? then 1 else 0)
    }

    function ContextOf(kind: Kind): Option<Context>
      reads this
    {
      if kind == PinyinKind then pinyinContext else chewingContext
    }

    /** No task, a freshly started timer, no context. */
    constructor (optionBits: OptionBits)
      requires optionBits.WellFormed()
      ensures Valid() && this.optionBits == optionBits
      ensures !scheduled && elapsed == 0 && armed == 0
      ensures pinyinContext == None && chewingContext == None && log == []
    {
      this.optionBits := optionBits;
      scheduled := false;
      elapsed := 0;
      pinyinContext := None;
      chewingContext := None;
      armed := 0;
      log := [];
    }

    /**
     * The destructor: if a task is armed, save once and remove the task; then
     * finalise every existing context and forget both.
     */
    method Destroy()
      requires Valid()
      modifies this`pinyinContext, this`chewingContext, this`armed, this`log
      ensures pinyinContext == None && chewingContext == None && armed == 0
      ensures log == old(log)
                     + (if old(scheduled) then SaveEffects(old(pinyinContext), old(chewingContext)) else [])
                     + FiniEffects(old(pinyinContext), old(chewingContext))
    {
      if scheduled {
        var _ := SaveUserDB();
        armed := armed - 1;
      }
      if pinyinContext.Some? {
        log := log + [Fini(PinyinKind)];
      }
      pinyinContext := None;
      if chewingContext.Some? {
        log := log + [Fini(ChewingKind)];
      }
      chewingContext := None;
    }

    /**
     * Returns an instance from the Pinyin context, creating the context first
     * when there is none: the user directory is passed only if it could be
     * created, and the configuration is applied at once.
     */
    method AllocPinyinInstance(config: Config, home: string, mkdirOk: bool) returns (instance: Instance)
      requires Valid()
      modifies this`pinyinContext, this`chewingContext, this`log
      ensures Valid() && instance == Instance(PinyinKind)
      ensures chewingContext == old(chewingContext)
      ensures old(pinyinContext).Some? ==>
        pinyinContext == old(pinyinContext) && log == old(log) + [Alloc(PinyinKind)]
      ensures old(pinyinContext).None? ==>
        var dir := CacheDir(home, "libpinyin");
        var userDir := if mkdirOk then Some(dir) else None;
        && pinyinContext == Some(Context(SystemDataDir, userDir, Some(FuzzySettings(config.option, optionBits)),
                                         LastMatch(ShuangPinTable, config.doublePinyinSchema), None))
        && log == old(log) + [MakeDir(dir), Init(PinyinKind, userDir), Alloc(PinyinKind)]
    {
      if pinyinContext.None? {
        var dir := CacheDir(home, "libpinyin");
        var userDir := if mkdirOk then Some(dir) else None;
        log := log + [MakeDir(dir), Init(PinyinKind, userDir)];
        pinyinContext := Some(Context(SystemDataDir, userDir, None, None, None));
        ghost var created := [MakeDir(dir), Init(PinyinKind, userDir)];
        assert created[..1] == [MakeDir(dir)] && created[..1][..0] == [];
        assert InitCount(created[..1], PinyinKind) == 0;
        assert InitCount(created, PinyinKind) == 1;
        InitCountAppend(old(log), created, PinyinKind);
        InitCountNoInit(old(log), [MakeDir(dir), Init(PinyinKind, userDir)], ChewingKind);
        var _ := SetPinyinOptions(config);
      }
      InitCountNoInit(log, [Alloc(PinyinKind)], PinyinKind);
      InitCountNoInit(log, [Alloc(PinyinKind)], ChewingKind);
      log := log + [Alloc(PinyinKind)];
      instance := Instance(PinyinKind);
    }

    /** Hands `instance` back to libpinyin, which frees it from the context it came from. */
    method FreePinyinInstance(instance: Instance)
      requires Valid()
      modifies this`log
      ensures Valid() && log == old(log) + [Free(instance.kind)]
    {
      InitCountNoInit(log, [Free(instance.kind)], PinyinKind);
      InitCountNoInit(log, [Free(instance.kind)], ChewingKind);
      log := log + [Free(instance.kind)];
    }

    /**
     * Returns an instance from the Chewing context, creating the context first
     * when there is none. The bopomofo user directory is created but never
     * passed: the context always gets no user directory.
     */
    method AllocChewingInstance(config: Config, home: string, mkdirOk: bool) returns (instance: Instance)
      requires Valid()
      modifies this`pinyinContext, this`chewingContext, this`log
      ensures Valid() && instance == Instance(ChewingKind)
      ensures pinyinContext == old(pinyinContext)
      ensures old(chewingContext).Some? ==>
        chewingContext == old(chewingContext) && log == old(log) + [Alloc(ChewingKind)]
      ensures old(chewingContext).None? ==>
        var dir := CacheDir(home, "libbopomofo");
        && chewingContext == Some(Context(SystemDataDir, None, Some(FuzzySettings(config.option, optionBits)),
                                          None, LastMatch(ZhuYinTable, config.bopomofoKeyboardMapping)))
        && log == old(log) + [MakeDir(dir), Init(ChewingKind, None), Alloc(ChewingKind)]
    {
      if chewingContext.None? {
        var dir := CacheDir(home, "libbopomofo");
        log := log + [MakeDir(dir), Init(ChewingKind, None)];
        chewingContext := Some(Context(SystemDataDir, None, None, None, None));
        ghost var created := [MakeDir(dir), Init(ChewingKind, None)];
        assert created[..1] == [MakeDir(dir)] && created[..1][..0] == [];
        assert InitCount(created[..1], ChewingKind) == 0;
        assert InitCount(created, ChewingKind) == 1;
        InitCountAppend(old(log), created, ChewingKind);
        InitCountNoInit(old(log), [MakeDir(dir), Init(ChewingKind, None)], PinyinKind);
        var _ := SetChewingOptions(config);
      }
      InitCountNoInit(log, [Alloc(ChewingKind)], PinyinKind);
      InitCountNoInit(log, [Alloc(ChewingKind)], ChewingKind);
      log := log + [Alloc(ChewingKind)];
      instance := Instance(ChewingKind);
    }

    /** Hands `instance` back to libpinyin, which frees it from the context it came from. */
    method FreeChewingInstance(instance: Instance)
      requires Valid()
      modifies this`log
      ensures Valid() && log == old(log) + [Free(instance.kind)]
    {
      InitCountNoInit(log, [Free(instance.kind)], PinyinKind);
      InitCountNoInit(log, [Free(instance.kind)], ChewingKind);
      log := log + [Free(instance.kind)];
    }

    /**
     * Applies the fuzzy settings of `config` to the context of `kind`, which
     * must exist; always succeeds and touches nothing else.
     */
    method SetFuzzyOptions(config: Config, kind: Kind) returns (ok: bool)
      requires optionBits.WellFormed()
      requires ContextOf(kind).Some?
      modifies this`pinyinContext, this`chewingContext
      ensures ok
      ensures ContextOf(kind) == Some(old(ContextOf(kind)).value.(settings := Some(FuzzySettings(config.option, optionBits))))
      ensures kind == PinyinKind ==> chewingContext == old(chewingContext)
      ensures kind == ChewingKind ==> pinyinContext == old(pinyinContext)
    {
      var custom := BuildFuzzySettings(config.option, optionBits, UnsetSettings);
      if kind == PinyinKind {
        pinyinContext := Some(pinyinContext.value.(settings := Some(custom)));
      } else {
        chewingContext := Some(chewingContext.value.(settings := Some(custom)));
      }
      ok := true;
    }

    /**
     * Without a Pinyin context: fails and changes nothing. Otherwise sets the
     * double-pinyin scheme of every table row whose index matches, then the
     * fuzzy settings, and succeeds.
     */
    method SetPinyinOptions(config: Config) returns (ok: bool)
      requires optionBits.WellFormed()
      modifies this`pinyinContext, this`chewingContext
      ensures ok == old(pinyinContext).Some?
      ensures chewingContext == old(chewingContext)
      ensures !ok ==> pinyinContext == old(pinyinContext)
      ensures ok ==> pinyinContext == Some(old(pinyinContext).value.(
        doublePinyinScheme := LastMatch(ShuangPinTable, config.doublePinyinSchema).Or(old(pinyinContext).value.doublePinyinScheme),
        settings := Some(FuzzySettings(config.option, optionBits))))
    {
      if pinyinContext.None? {
        return false;
      }
      var index := config.doublePinyinSchema;
      for i := 0 to |ShuangPinTable|
        invariant chewingContext == old(chewingContext)
        invariant pinyinContext == Some(old(pinyinContext).value.(
          doublePinyinScheme := LastMatch(ShuangPinTable[..i], index).Or(old(pinyinContext).value.doublePinyinScheme)))
      {
        assert ShuangPinTable[..i + 1][..i] == ShuangPinTable[..i];
        if index == ShuangPinTable[i].key {
          pinyinContext := Some(pinyinContext.value.(doublePinyinScheme := Some(ShuangPinTable[i].scheme)));
        }
      }
      assert ShuangPinTable[..|ShuangPinTable|] == ShuangPinTable;
      var _ := SetFuzzyOptions(config, PinyinKind);
      return true;
    }

    /**
     * Without a Chewing context: fails and changes nothing. Otherwise sets the
     * zhuyin scheme of every table row whose index matches, then the fuzzy
     * settings, and succeeds.
     */
    method SetChewingOptions(config: Config) returns (ok: bool)
      requires optionBits.WellFormed()
      modifies this`pinyinContext, this`chewingContext
      ensures ok == old(chewingContext).Some?
      ensures pinyinContext == old(pinyinContext)
      ensures !ok ==> chewingContext == old(chewingContext)
      ensures ok ==> chewingContext == Some(old(chewingContext).value.(
        zhuyinScheme := LastMatch(ZhuYinTable, config.bopomofoKeyboardMapping).Or(old(chewingContext).value.zhuyinScheme),
        settings := Some(FuzzySettings(config.option, optionBits))))
    {
      if chewingContext.None? {
        return false;
      }
      var index := config.bopomofoKeyboardMapping;
      for i := 0 to |ZhuYinTable|
        invariant pinyinContext == old(pinyinContext)
        invariant chewingContext == Some(old(chewingContext).value.(
          zhuyinScheme := LastMatch(ZhuYinTable[..i], index).Or(old(chewingContext).value.zhuyinScheme)))
      {
        assert ZhuYinTable[..i + 1][..i] == ZhuYinTable[..i];
        if index == ZhuYinTable[i].key {
          chewingContext := Some(chewingContext.value.(zhuyinScheme := Some(ZhuYinTable[i].scheme)));
        }
      }
      assert ZhuYinTable[..|ZhuYinTable|] == ZhuYinTable;
      var _ := SetFuzzyOptions(config, ChewingKind);
      return true;
    }

    /**
     * Called whenever user data changes: restarts the timer and arms a save
     * task unless one is armed already, so exactly one task is armed after.
     */
    method Modified()
      requires Valid()
      modifies this`elapsed, this`scheduled, this`armed
      ensures Valid()
      ensures elapsed == 0 && scheduled && armed == 1
    {
      elapsed := 0;
      if scheduled {
        return;
      }
      scheduled := true;
      armed := armed + 1;
    }

    /** Time passing on the save timer. */
    method Wait(seconds: nat)
      modifies this`elapsed
      ensures elapsed == old(elapsed) + seconds
    {
      elapsed := elapsed + seconds;
    }

    /**
     * The save task's callback: once the quiet period has passed, saves and
     * stops (returns false, task cleared); before that it keeps firing and
     * saves nothing.
     */
    method TimeoutCallback() returns (keep: bool)
      modifies this`scheduled, this`log
      ensures keep == (elapsed < SaveTimeout)
      ensures keep ==> scheduled == old(scheduled) && log == old(log)
      ensures !keep ==> !scheduled && log == old(log) + SaveEffects(pinyinContext, chewingContext)
    {
      var e := elapsed;
      if e >= SaveTimeout {
        var saved := SaveUserDB();
        if saved {
          scheduled := false;
          return false;
        }
      }
      return true;
    }

    /**
     * The main loop firing the armed task: the source is removed exactly
     * when the callback returns false, so the invariant survives.
     */
    method Dispatch() returns (keep: bool)
      requires Valid() && scheduled
      modifies this`scheduled, this`log, this`armed
      ensures Valid()
      ensures keep == (elapsed < SaveTimeout) && scheduled == keep && armed == (if keep then 1 else 0)
      ensures log == old(log) + (if keep then [] else SaveEffects(pinyinContext, chewingContext))
    {
      InitCountNoInit(log, SaveEffects(pinyinContext, chewingContext), PinyinKind);
      InitCountNoInit(log, SaveEffects(pinyinContext, chewingContext), ChewingKind);
      keep := TimeoutCallback();
      if !keep {
        armed := armed - 1;
      }
    }

    /** Saves every existing context, Pinyin first, and reports success. */
    method SaveUserDB() returns (ok: bool)
      modifies this`log
      ensures ok
      ensures log == old(log) + SaveEffects(pinyinContext, chewingContext)
    {
      if pinyinContext.Some? {
        log := log + [Save(PinyinKind)];
      }
      if chewingContext.Some? {
        log := log + [Save(ChewingKind)];
      }
      ok := true;
    }
  }
}
