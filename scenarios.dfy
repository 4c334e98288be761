/**
 * Clients of LibPinyinBackEnd that show, from the method contracts alone, the
 * behaviour the bridge promises: one save task however often data changes,
 * no save inside the quiet period, one context per scheme, and a final save
 * before the contexts are finalised.
 */
module LibPinyinScenarios {
  import opened Wrappers
  import opened LibPinyinOptions
  import opened LibPinyin

  method DebouncedSave(bits: OptionBits, config: Config, home: string)
    requires bits.WellFormed()
  {
    var backend := new LibPinyinBackEnd(bits);
    var instance := backend.AllocPinyinInstance(config, home, true);
    backend.Modified();
    backend.Modified();
    backend.Modified();
    assert backend.scheduled && backend.armed == 1;

    backend.Wait(SaveTimeout - 1);
    var logBefore := backend.log;
    var keep := backend.Dispatch();
    assert keep && backend.scheduled && backend.log == logBefore;

    backend.Modified();
    backend.Wait(SaveTimeout - 1);
    keep := backend.Dispatch();
    assert keep && backend.log == logBefore;

    backend.Wait(1);
    keep := backend.Dispatch();
    assert !keep && !backend.scheduled && backend.armed == 0;
    assert backend.log == logBefore + [Save(PinyinKind)];
  }

  method ContextCreatedOnce(bits: OptionBits, config: Config, home: string, firstMkdir: bool, secondMkdir: bool)
    requires bits.WellFormed()
  {
    var backend := new LibPinyinBackEnd(bits);
    var a := backend.AllocPinyinInstance(config, home, firstMkdir);
    var context := backend.pinyinContext;
    var b := backend.AllocPinyinInstance(config, home, secondMkdir);
    assert backend.pinyinContext == context;
    assert InitCount(backend.log, PinyinKind) == 1;
    assert context.value.userDir == (if firstMkdir then Some(CacheDir(home, "libpinyin")) else None);

    var c := backend.AllocChewingInstance(config, home, true);
    assert backend.chewingContext.value.userDir == None;
    assert InitCount(backend.log, ChewingKind) == 1;
  }

  method TeardownSavesFirst(bits: OptionBits, config: Config, home: string)
    requires bits.WellFormed()
  {
    var backend := new LibPinyinBackEnd(bits);
    var instance := backend.AllocChewingInstance(config, home, false);
    backend.Modified();
    var logBefore := backend.log;
    backend.Destroy();
    assert backend.log == logBefore + [Save(ChewingKind), Fini(ChewingKind)];
    assert backend.chewingContext == None && backend.armed == 0;
  }

  method SchemeSelection(bits: OptionBits, home: string)
    requires bits.WellFormed()
  {
    var backend := new LibPinyinBackEnd(bits);
    var ok := backend.SetPinyinOptions(Config(0, 2, 0));
    assert !ok && backend.pinyinContext == None;

    ShuangPinLookup(2);
    var instance := backend.AllocPinyinInstance(Config(0, 2, 0), home, true);
    assert backend.pinyinContext.value.doublePinyinScheme == Some(ShuangPinAbc);

    ShuangPinLookup(7);
    ok := backend.SetPinyinOptions(Config(0, 7, 0));
    assert ok && backend.pinyinContext.value.doublePinyinScheme == Some(ShuangPinAbc);
  }
}
