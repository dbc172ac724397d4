/** Option and Result values, and the failures the deployment core can raise. */
module Outcomes {

  datatype Option<+T> = None | Some(value: T)

  /** The ways a call of the core can fail; each stands for a Python exception. */
  datatype Error =
    /** `find_service` gave None for a dependency, so reading `.provides` raised. */
    | UnresolvedDependency(dependency: string)
    /** A `${name}` placeholder whose name is not in the environment (KeyError). */
    | UnresolvedPlaceholder(name: string)
    /** The registry file has no entry for the name (KeyError). */
    | MissingService(name: string)
    /** The registry file could not be opened or did not parse. */
    | RegistryUnreadable
    /** A supervisor script could not be read from the scripts directory. */
    | MissingScript(script: string)

  datatype Result<+T> = Ok(value: T) | Err(error: Error)
}
