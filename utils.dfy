/** The Bunch of ramverk.utils: a string-keyed bag of values. */
module Utils {
  import opened Http

  /** A value stored in settings or in the per-request store. */
  datatype Value =
    | Flag(flag: bool)
    | EnvironValue(environ: Environ)
    // any value the core only passes along, such as the `storage` factory an application is configured with
    | Other(name: string)

  /** Attribute and item access on a Bunch reach the same storage, so one map models both. */
  type Bunch = map<string, Value>
}
