/** Session configuration and its defaults (hourtab/options.go). */
module Options {
  import opened Errors
  import opened Ints

  /** One second as a `time.Duration`, in nanoseconds. */
  const Second: i64 := 1_000_000_000
  const DefaultSyncFrequency: i64 := 10 * Second
  const DefaultTimeoutAfter: u64 := 2
  const DbFileName: string := ".hourtab"

  /** `SessionOptions`: the snapshot file and its mode, the sweep/save
      interval in nanoseconds and the number of intervals before a project
      counts as inactive. */
  datatype SessionOptions = SessionOptions(
    dbPath: string,
    dbMode: u32,
    syncFrequency: i64,
    timeoutAfter: u64)

  /** `filepath.Join(home, ".hourtab")` for a home directory that needs no
      cleaning. */
  function JoinDbFile(home: string): (p: string)
    ensures home == "" ==> p == DbFileName
    ensures home != "" ==> exists d :: p == d + "/" + DbFileName && (d == home || d + "/" == home)
  {
    if home == "" then DbFileName
    else if home[|home| - 1] == '/' then
      var d := home[..|home| - 1];
      assert d + "/" == home;
      assert home + DbFileName == d + "/" + DbFileName;
      home + DbFileName
    else home + "/" + DbFileName
  }

  /** `DefaultOptions`, given the outcome of the home-directory lookup: the
      lookup's error is returned unchanged; otherwise the snapshot lives in
      the home directory, the interval is 10 s, the multiplier 2 and the file
      mode is left at zero. */
  function DefaultOptions(home: Result<string>): (r: Result<SessionOptions>)
    ensures home.Failure? <==> r.Failure?
    ensures home.Failure? ==> r.error == home.error
    ensures home.Success? ==>
      && r.value.syncFrequency == 10_000_000_000
      && r.value.timeoutAfter == 2
      && r.value.dbMode == 0
      && r.value.dbPath == JoinDbFile(home.value)
  {
    match home
    case Failure(e) => Failure(e)
    case Success(h) =>
      Success(SessionOptions(JoinDbFile(h), 0, DefaultSyncFrequency, DefaultTimeoutAfter))
  }
}
