/**
 * Configuration (src/claude_clone/config.py): the permission-mode cycle, the
 * safety settings the agent consults, and the per-model configuration table.
 */
module Config {

  /** `PermissionMode`. */
  datatype PermissionMode = Normal | AutoAccept | PlanMode {
    function Value(): string {
      match this
      case Normal => "normal"
      case AutoAccept => "auto_accept"
      case PlanMode => "plan_mode"
    }
  }

  /** `_MODES`: the cycling order. */
  const Modes: seq<PermissionMode> := [Normal, AutoAccept, PlanMode]

  /** `_MODES.index(mode)`. */
  function IndexOf(mode: PermissionMode): (i: nat)
    ensures i < |Modes| && Modes[i] == mode
  {
    match mode
    case Normal => 0
    case AutoAccept => 1
    case PlanMode => 2
  }

  /** The mode after `mode`, wrapping around at the end of the list. */
  function Next(mode: PermissionMode): (r: PermissionMode)
    ensures IndexOf(r) == (IndexOf(mode) + 1) % 3
  {
    Modes[(IndexOf(mode) + 1) % |Modes|]
  }

  /** Normal, then auto-accept, then plan mode, then normal again; three steps come back. */
  lemma CycleOrder(mode: PermissionMode)
    ensures Next(Normal) == AutoAccept && Next(AutoAccept) == PlanMode && Next(PlanMode) == Normal
    ensures Next(Next(Next(mode))) == mode
    ensures Next(mode) != mode
  {
  }

  /** The status-bar name and colour of a mode. */
  function DisplayInfo(mode: PermissionMode): (string, string) {
    match mode
    case Normal => ("Normal", "green")
    case AutoAccept => ("Auto", "yellow")
    case PlanMode => ("Plan", "cyan")
  }

  /** Every mode has its own short name. */
  lemma DisplayInfoDistinct(a: PermissionMode, b: PermissionMode)
    ensures DisplayInfo(a).0 == DisplayInfo(b).0 ==> a == b
  {
  }

  /** `PermissionModeManager`, as one explicit instance. */
  class PermissionModeManager {
    var mode: PermissionMode

    /** A new manager starts in normal mode. */
    constructor()
      ensures mode == Normal
    {
      mode := Normal;
    }

    /** The `current` property: the stored mode. */
    function Current(): (m: PermissionMode)
      reads this
      ensures m == mode
    {
      mode
    }

    /** `cycle`: moves to the next mode and returns it. */
    method Cycle() returns (next: PermissionMode)
      modifies this
      ensures mode == Next(old(mode)) && next == mode
    {
      var idx := IndexOf(mode);
      mode := Modes[(idx + 1) % |Modes|];
      next := mode;
    }

    /** `set_mode`. */
    method SetMode(m: PermissionMode)
      modifies this
      ensures mode == m
    {
      mode := m;
    }

    /** `get_display_info`: the current mode's name and colour; no other mode shows that name. */
    function GetDisplayInfo(): (info: (string, string))
      reads this
      ensures info == DisplayInfo(mode)
      ensures forall m: PermissionMode :: DisplayInfo(m).0 == info.0 ==> m == mode
    {
      DisplayInfo(mode)
    }
  }

  /** The safety settings of `Settings` that the agent consults. */
  datatype Settings = Settings(confirmWrites: bool, confirmCommands: bool)

  /** Both confirmations are on by default. */
  const DefaultSettings: Settings := Settings(true, true)

  /** A model's entry in `MODEL_CONFIGS`, without its temperature. */
  datatype ModelConfig = ModelConfig(contextLength: nat, supportsTools: bool)

  /** `MODEL_CONFIGS`. */
  const ModelConfigs: map<string, ModelConfig> := map[
    "qwen2.5-coder:32b" := ModelConfig(16384, true),
    "qwen2.5-coder:14b" := ModelConfig(32768, true),
    "qwen2.5-coder:7b" := ModelConfig(32768, true),
    "deepseek-coder:33b" := ModelConfig(16384, true),
    "codellama:34b" := ModelConfig(16384, false),
    "llama3.1:8b" := ModelConfig(128000, true)]

  /** The entry used for a model the table does not list. */
  const DefaultModelConfig: ModelConfig := ModelConfig(8192, true)

  /** `get_model_config`. */
  function GetModelConfig(model: string): (c: ModelConfig)
    ensures model in ModelConfigs ==> c == ModelConfigs[model]
    ensures model !in ModelConfigs ==> c == DefaultModelConfig
  {
    if model in ModelConfigs then ModelConfigs[model] else DefaultModelConfig
  }

  /**
   * Every model gets a window of at least 8192 tokens, and only
   * `codellama:34b` is configured without tool support.
   */
  lemma ModelConfigFacts(model: string)
    ensures GetModelConfig(model).contextLength >= 8192
    ensures !GetModelConfig(model).supportsTools <==> model == "codellama:34b"
    ensures GetModelConfig(model).contextLength == 8192 <==> model !in ModelConfigs
  {
    if model in ModelConfigs {
      assert model in {"qwen2.5-coder:32b", "qwen2.5-coder:14b", "qwen2.5-coder:7b",
        "deepseek-coder:33b", "codellama:34b", "llama3.1:8b"};
    }
  }
}
