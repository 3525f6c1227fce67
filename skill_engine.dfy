/** `SkillEngine`: a name-keyed registry of skill configurations. Reading and
    writing the registry file are I/O; the load's outcome is a parameter and
    the save is not modelled (its failures are logged and swallowed). */
module Skills {
  import opened Wrappers
  import opened Dicts
  import opened PyValues

  /** What reading `skills/skill_registry.json` gave. */
  datatype RegistryFile = NoRegistryFile | UnreadableRegistry(error: string) | RegistryLoaded(skills: Dict<string, Value>)

  /** The envelope a successful skill run returns. */
  function SkillRan(name: string): Envelope {
    Success([("skill", Str(name))])
  }

  class SkillEngine {
    var registry: Dict<string, Value>

    /** `__init__` + `load_skill_registry`: the registry starts empty and is
        replaced by the file's contents when they can be read. */
    constructor (file: RegistryFile)
      ensures registry == if file.RegistryLoaded? then file.skills else []
    {
      registry := [];
      if file.RegistryLoaded? {
        registry := file.skills;
      }
    }

    /** `execute_skill`: `None` for an unknown name, otherwise the success
        envelope naming the skill. */
    function ExecuteSkill(name: string, params: Dict<string, Value>): (r: Option<Envelope>)
      reads this
      ensures r.None? <==> name !in ListAvailableSkills()
      ensures r.Some? ==> r.value == SkillRan(name)
    {
      if name in Keys(registry) then Some(SkillRan(name)) else None
    }

    /** `list_available_skills`: the registered names, in registration order. */
    function ListAvailableSkills(): (names: seq<string>)
      reads this
      ensures |names| == |registry|
      ensures forall i :: 0 <= i < |registry| ==> names[i] == registry[i].0
    {
      Keys(registry)
    }

    /** `register_skill`: bind the name to the new configuration (the last
        registration wins); every other binding is left as it was. */
    method RegisterSkill(name: string, config: Value)
      modifies this
      ensures registry == Put(old(registry), name, config)
      ensures Get(registry, name) == Some(config)
      ensures forall other :: other != name ==> Get(registry, other) == Get(old(registry), other)
      ensures name in ListAvailableSkills()
      ensures forall p :: ExecuteSkill(name, p) == Some(SkillRan(name))
    {
      ghost var before := registry;
      registry := Put(registry, name, config);
      PutGet(before, name, config, name);
      forall other | other != name
        ensures Get(registry, other) == Get(before, other)
      {
        PutGet(before, name, config, other);
      }
    }
  }
}
