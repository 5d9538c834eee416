/**
 * The autopilot run state: which settings the current run uses, where it was
 * launched from and the exit code it will end with, plus the lazily created
 * process-wide instance.
 */
module Settings {
  import opened Types

  /** The settings asset of a run; the core reads only its name. */
  class AutopilotSettings {
    const name: string

    constructor (name: string)
      ensures this.name == name
    {
      this.name := name;
    }
  }

  class AutopilotState {
    var launchFrom: LaunchType
    var settings: AutopilotSettings?
    var exitCode: ExitCode

    /** The state of a fresh `CreateInstance<AutopilotState>()`: field initialisers and defaults. */
    constructor ()
      ensures IsReset()
    {
      launchFrom := NotSet;
      settings := null;
      exitCode := Normally;
    }

    /** The three fields hold the values `Reset` gives them. */
    ghost predicate IsReset()
      reads this
    {
      launchFrom == NotSet && settings == null && exitCode == Normally
    }

    /** A run is in progress exactly while a settings object is attached. */
    predicate IsRunning()
      reads this
      ensures IsRunning() <==> settings != null
    {
      settings != null
    }

    /**
     * Clears the run state. The new state does not depend on the old one, so
     * resetting a state that is already reset changes nothing (idempotence).
     */
    method Reset()
      modifies this
      ensures IsReset()
      ensures !IsRunning()
      ensures old(IsReset()) ==> unchanged(this)
    {
      launchFrom := NotSet;
      settings := null;
      exitCode := Normally;
    }
  }

  /** Holds the static `s_instance` field of `AutopilotState`. */
  class AutopilotStateRegistry {
    var instance: AutopilotState?

    constructor ()
      ensures instance == null
    {
      instance := null;
    }

    /**
     * `AutopilotState.Instance`. `assets` are the AutopilotState assets the
     * editor's asset database finds, in its order (empty in a player build);
     * an entry may be a destroyed object, hence null. Never returns null; once
     * the instance is set it is returned as it is and nothing is created.
     */
    method Instance(assets: seq<AutopilotState?>) returns (s: AutopilotState)
      modifies this
      ensures instance == s
      ensures old(instance) != null ==> s == old(instance)
      ensures old(instance) == null && |assets| > 0 && assets[0] != null ==> s == assets[0]
      ensures old(instance) == null && (|assets| == 0 || assets[0] == null) ==> fresh(s) && s.IsReset()
      ensures !fresh(s) ==> s == old(instance) || (|assets| > 0 && s == assets[0])
    {
      if instance == null {
        instance := if |assets| > 0 then assets[0] else null;
        if instance == null {
          instance := new AutopilotState();
        }
      }
      s := instance;
    }
  }
}
