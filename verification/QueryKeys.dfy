/** Query identities: paths of parts, so that a prefix names a family of queries
    (crates/rustnative-data/src/query.rs). */
module QueryKeys {
  type QueryKey = seq<string>

  predicate StartsWith(key: QueryKey, prefix: QueryKey) {
    prefix <= key
  }
}
