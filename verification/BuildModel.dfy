/** Runtime build specifications and the environment key. */
module BuildModel {
  import opened Prelude

  // Texts that are only compared: image names, versions, platforms.
  type Label(==, !new)

  /** Canonical package names with their pinned versions. */
  type Packages = map<string, string>

  /** parse_locked_packages: None when it raises. */
  type Parser = string -> Option<Packages>

  datatype Spec = Spec(baseImage: Label, pythonVersion: Label, platform: Label, lock: string, policy: Label)

  /** SHA-256 as a collision-free constructor. */
  datatype Digest = Sha256(text: string)

  datatype EnvKey = EnvKey(baseImage: Label, pythonVersion: Label, platform: Label, lock: Digest, policy: Label)

  function KeyOf(spec: Spec): EnvKey {
    EnvKey(spec.baseImage, spec.pythonVersion, spec.platform, Sha256(spec.lock), spec.policy)
  }

  /** The packages a key stands for; a key of an unparsable lock asks for nothing. */
  function Wanted(parse: Parser, key: EnvKey): Packages {
    var parsed := parse(key.lock.text);
    if parsed.Some? then parsed.value else map[]
  }

  predicate Contains(packages: Packages, wanted: Packages) {
    forall name :: name in wanted ==> name in packages && packages[name] == wanted[name]
  }

  predicate Compatible(spec: Spec, key: EnvKey) {
    && spec.baseImage == key.baseImage && spec.pythonVersion == key.pythonVersion
    && spec.platform == key.platform && spec.policy == key.policy
  }
}
