/** An optional value: a request field that may be absent, an application
    identity the verifier may refuse, an entry a lookup may not find. */
module Optional {

  datatype Option<T> = None | Some(value: T)
}
