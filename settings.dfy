/**
 * The wrapper's settings: INI sections, each a map from key to value, read
 * from `settings.ini` and, when readable, `settings.local.ini`. Reading and
 * parsing the files is outside the model; only their merge is modelled.
 */
module Settings {
  import opened Wrappers

  type Section = map<string, string>
  type Sections = map<string, Section>

  /**
   * `array_merge(base, local)` on string-keyed sections: every section of
   * either file is present, and a section the local file defines replaces
   * the base section of that name as a whole (keys are not merged inside it).
   */
  function Merge(base: Sections, local: Sections): (r: Sections)
    ensures r.Keys == base.Keys + local.Keys
    ensures forall name | name in local :: r[name] == local[name]
    ensures forall name | name in base && name !in local :: r[name] == base[name]
  {
    base + local
  }

  /** The settings the constructor keeps: the base file, merged with the local one when it is readable. */
  function Resolve(base: Sections, local: Option<Sections>): Sections
  {
    match local
    case None => base
    case Some(l) => Merge(base, l)
  }

  /** `settings[section][key]`, or nothing when either is missing. */
  function Setting(settings: Sections, section: string, key: string): Option<string>
  {
    if section in settings && key in settings[section] then Some(settings[section][key]) else None
  }

  /**
   * The merge overrides rather than accumulates: the merged settings already
   * hold every local section verbatim, so applying the local file a second
   * time adds nothing.
   */
  lemma MergeIdempotent(base: Sections, local: Sections)
    ensures Merge(Merge(base, local), local) == Merge(base, local)
  {
  }

  /** An empty local file leaves the base settings as they are. */
  lemma MergeEmptyLocal(base: Sections)
    ensures Merge(base, map[]) == base
  {
  }

  /**
   * A key looked up after the merge comes from the local section when the
   * local file has that section, even if the local section lacks the key.
   */
  lemma SettingAfterMerge(base: Sections, local: Sections, section: string, key: string)
    ensures section in local ==> Setting(Merge(base, local), section, key) == Setting(local, section, key)
    ensures section !in local ==> Setting(Merge(base, local), section, key) == Setting(base, section, key)
  {
  }

  /**
   * A local section hides every key of the base section it replaces: a key
   * missing from the local section is missing after the merge, whatever the
   * base file says.
   */
  lemma WholeSectionReplaced(base: Sections, local: Sections, section: string, key: string)
    requires section in local && key !in local[section]
    ensures Setting(Merge(base, local), section, key) == None
  {
  }
}
