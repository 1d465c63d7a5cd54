/** Which storage the data layer talks to, and what a remote query can return. */
module Backend {
  import opened Wrappers

  /** The build-time configuration: the offline switch and the two Supabase
      environment variables (`None` when unset). */
  datatype Config = Config(offline: bool, supabaseUrl: Option<string>, supabaseAnonKey: Option<string>)

  /** The branch every operation takes: the browser's local storage, Supabase,
      or the fallback after both (nothing in the current store, Google Sheets
      and Forms in the legacy one). */
  datatype Choice = Offline | Supabase | Fallback

  /** Both variables are set and non-empty, so a client is created. */
  predicate HasSupabase(cfg: Config) {
    && cfg.supabaseUrl.Some? && cfg.supabaseUrl.value != ""
    && cfg.supabaseAnonKey.Some? && cfg.supabaseAnonKey.value != ""
  }

  /** First match wins: the offline switch, then Supabase, then the fallback. */
  function SelectBackend(cfg: Config): (b: Choice)
    ensures b == Offline <==> cfg.offline
    ensures b == Supabase <==> !cfg.offline && HasSupabase(cfg)
    ensures b == Fallback <==> !cfg.offline && !HasSupabase(cfg)
  {
    if cfg.offline then Offline
    else if HasSupabase(cfg) then Supabase
    else Fallback
  }

  /** The outcome of a Supabase select: an error (or no data at all), or rows. */
  datatype Query<R> = QueryError | Rows(rows: seq<R>)
}
