/** The backend contracts derived from a compiled plan, and the key a variant is filed under. */
module Backends {
  import opened Prelude
  import opened Contracts
  import opened Compiler

  type ContractId(==, !new)

  datatype Backend = RunnerBackend | NifiNative

  /** The options after defaults are filled in; these and no others enter the key. */
  datatype Options = RunnerOptions(profile: string) | NativeOptions(className: string, packageName: string)

  function CompilerVersion(backend: Backend): string {
    if backend.RunnerBackend? then "runner-contract-v1" else "nifi-native-contract-v1"
  }

  /** backend_variant_key: a hash, so a collision-free constructor. */
  datatype VariantKey = VariantKey(digest: Digest, backend: Backend, compilerVersion: string, options: Options)

  /** What every backend contract repeats: the parent's fields, which JSON sees without their order. */
  datatype Heritage = Heritage(id: ContractId, number: nat, fields: Digest, digest: Digest, key: VariantKey)

  datatype BackendContract =
    | RunnerContract(heritage: Heritage, profile: string, name: string, inputAttributes: seq<string>,
                     outputAttributes: seq<string>, parameters: seq<CompiledParameter>)
    | NativeContract(heritage: Heritage, className: string, packageName: string,
                     properties: seq<CompiledParameter>, requirements: seq<string>)

  /** Default names of a native processor, made from the operator's name and the start of the digest. */
  datatype Naming = Naming(className: (string, Digest) -> string, packageName: (string, Digest) -> string)

  function GetOr(options: map<string, string>, name: string, default: string): string {
    if name in options && options[name] != "" then options[name] else default
  }

  function Normalized(naming: Naming, defaultProfile: string, backend: Backend, options: map<string, string>,
                      parent: Contract, plan: Plan): Options {
    if backend.RunnerBackend? then RunnerOptions(if "profile" in options then options["profile"] else defaultProfile)
    else
      NativeOptions(GetOr(options, "className", naming.className(parent.name, plan.digest)),
                    GetOr(options, "packageName", naming.packageName(parent.name, plan.digest)))
  }

  function KeyFor(plan: Plan, backend: Backend, options: Options): VariantKey {
    VariantKey(plan.digest, backend, CompilerVersion(backend), options)
  }

  /** compile_runner_contract and compile_nifi_native_contract, with the options normalized. */
  function Child(id: ContractId, number: nat, parent: Contract, plan: Plan, backend: Backend, options: Options,
                 requirements: seq<string>): BackendContract {
    var heritage := Heritage(id, number, DigestOf(parent), plan.digest, KeyFor(plan, backend, options));
    match options
    case RunnerOptions(profile) =>
      RunnerContract(heritage, profile, parent.name, plan.inputMetadata, plan.outputMetadata, plan.parameters)
    case NativeOptions(className, packageName) =>
      NativeContract(heritage, className, packageName, plan.parameters, requirements)
  }
}
