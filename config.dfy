/**
 * The HD-wallet section of the service configuration (`MnemonicConfig`):
 * the default mnemonic word count, the chain id, the plugin path, and the
 * base application config that says whether this is a production run.
 */
module Config {
  import opened Types

  type uint8 = x: int | 0 <= x < 256

  /** The base application config (`baseConfigService`); only its production flag is used here. */
  datatype BaseConfig = BaseConfig(isProd: bool)

  /** An argument of `PrepareWith`: a base application config, or a value of any other type. */
  datatype DependentConfig = Base(cfg: BaseConfig) | OtherConfig

  /** The word counts a mnemonic may have. */
  const AllowedWordCounts: set<int> := {15, 18, 21, 24}

  /** The base config `PrepareWith` leaves behind: the last one in the list, else the one already held. */
  function LastBaseConfig(held: Option<BaseConfig>, args: seq<DependentConfig>): (r: Option<BaseConfig>)
    ensures r == held || exists i :: 0 <= i < |args| && args[i].Base? && r == Some(args[i].cfg)
    ensures (forall i :: 0 <= i < |args| ==> args[i].OtherConfig?) ==> r == held
    ensures |args| > 0 && args[|args| - 1].Base? ==> r == Some(args[|args| - 1].cfg)
    ensures forall i :: 0 <= i < |args| && args[i].Base? && (forall j :: i < j < |args| ==> args[j].OtherConfig?) ==>
      r == Some(args[i].cfg)
    decreases args
  {
    if args == [] then held
    else if args[|args| - 1].Base? then Some(args[|args| - 1].cfg)
    else LastBaseConfig(held, args[..|args| - 1])
  }

  class MnemonicConfig {
    var mnemonicWordCount: uint8           // HDWALLET_WORDS_COUNT
    var chainID: int                       // HDWALLET_CHAIN_ID
    var pluginPath: string                 // HDWALLET_PLUGIN_PATH
    var baseAppCfgSrv: Option<BaseConfig>  // None is nil

    /** The struct as the environment loader fills it; the base config stays nil until `PrepareWith`. */
    constructor (wordCount: uint8, chain: int, path: string)
      ensures mnemonicWordCount == wordCount && chainID == chain && pluginPath == path
      ensures baseAppCfgSrv.None?
    {
      mnemonicWordCount := wordCount;
      chainID := chain;
      pluginPath := path;
      baseAppCfgSrv := None;
    }

    function GetDefaultMnemonicWordsCount(): (r: uint8)
      reads this
      ensures r == mnemonicWordCount
    {
      mnemonicWordCount
    }

    function GetHdWalletChainID(): (r: int)
      reads this
      ensures r == chainID
    {
      chainID
    }

    function GetHdWalletPluginPath(): (r: string)
      reads this
      ensures r == pluginPath
    {
      pluginPath
    }

    /**
     * `Prepare`: a missing base config is reported before anything else;
     * production rejects 18 words or fewer before the count is checked
     * against the allowed ones, so it accepts exactly 21 and 24.
     */
    function Prepare(): (err: Option<Error>)
      reads this
      ensures baseAppCfgSrv.None? ==> err == Some(BaseAppConfigIsEmpty)
      ensures baseAppCfgSrv.Some? && baseAppCfgSrv.value.isProd && mnemonicWordCount <= 18 ==> err == Some(MinWordsCount)
      ensures err.None? <==>
        && baseAppCfgSrv.Some?
        && mnemonicWordCount in (if baseAppCfgSrv.value.isProd then {21, 24} else AllowedWordCounts)
      ensures err.Some? ==> err.value in {BaseAppConfigIsEmpty, MinWordsCount, WrongMnemonicWordsCount}
      ensures (baseAppCfgSrv.Some? && !(baseAppCfgSrv.value.isProd && mnemonicWordCount <= 18)
               && mnemonicWordCount !in AllowedWordCounts) ==> err == Some(WrongMnemonicWordsCount)
    {
      if baseAppCfgSrv.None? then Some(BaseAppConfigIsEmpty)
      else if baseAppCfgSrv.value.isProd && mnemonicWordCount <= 18 then Some(MinWordsCount)
      else if mnemonicWordCount in AllowedWordCounts then None
      else Some(WrongMnemonicWordsCount)
    }

    /** `PrepareWith`: keep the last base config among the arguments, ignore the rest, never fail. */
    method PrepareWith(dependentCfgList: seq<DependentConfig>) returns (err: Option<Error>)
      modifies this`baseAppCfgSrv
      ensures err.None?
      ensures baseAppCfgSrv == LastBaseConfig(old(baseAppCfgSrv), dependentCfgList)
    {
      var i := 0;
      while i < |dependentCfgList|
        invariant 0 <= i <= |dependentCfgList|
        invariant baseAppCfgSrv == LastBaseConfig(old(baseAppCfgSrv), dependentCfgList[..i])
      {
        assert dependentCfgList[..i + 1][..i] == dependentCfgList[..i];
        match dependentCfgList[i] {
          case Base(castedCfg) =>
            baseAppCfgSrv := Some(castedCfg);
          case OtherConfig =>
        }
        i := i + 1;
      }
      assert dependentCfgList[..i] == dependentCfgList;
      return None;
    }
  }
}
