/**
 * How the backend chooses its database connection: the URL from the environment (or
 * the local SQLite default), with the "postgres://" scheme that hosting platforms hand
 * out rewritten to the "postgresql://" scheme SQLAlchemy expects, and the SQLite-only
 * connection argument.
 */
module Database {
  import opened Options
  import PyStr

  const DefaultUrl := "sqlite:///./nurse_triage.db"
  const LegacyScheme := "postgres://"
  const Scheme := "postgresql://"

  /** `os.getenv('DATABASE_URL', DefaultUrl)`: an unset variable gives the default. */
  function ConfiguredUrl(env: Option<string>): string {
    if env.Some? then env.value else DefaultUrl
  }

  /** The rewrite: a URL starting with "postgres://" has that first occurrence replaced. */
  function NormalizeUrl(url: string): (r: string)
    ensures PyStr.StartsWith(url, LegacyScheme) ==> r == Scheme + url[|LegacyScheme|..]
    ensures !PyStr.StartsWith(url, LegacyScheme) ==> r == url
  {
    if url != "" && PyStr.StartsWith(url, LegacyScheme) then PyStr.ReplaceFirst(url, LegacyScheme, Scheme) else url
  }

  /** `DATABASE_URL` as the engine receives it. */
  function DatabaseUrl(env: Option<string>): string {
    NormalizeUrl(ConfiguredUrl(env))
  }

  /** "postgresql://" does not start with "postgres://": the two differ at their ninth character. */
  lemma SchemeIsNotLegacy()
    ensures !PyStr.StartsWith(Scheme, LegacyScheme)
  {
    assert Scheme[8] != LegacyScheme[8];
  }

  /** Rewriting twice is rewriting once. */
  lemma NormalizeIdempotent(url: string)
    ensures NormalizeUrl(NormalizeUrl(url)) == NormalizeUrl(url)
  {
    var r := NormalizeUrl(url);
    if PyStr.StartsWith(url, LegacyScheme) {
      assert r[8] == Scheme[8] != LegacyScheme[8];
    }
  }

  /** With the variable unset the engine opens the local SQLite file, unchanged. */
  lemma DefaultUrlUnchanged()
    ensures DatabaseUrl(None) == DefaultUrl
  {
    assert DefaultUrl[0] != LegacyScheme[0];
  }

  datatype ConnectArgs = NoArgs | CheckSameThreadOff

  /** `{"check_same_thread": False} if "sqlite" in DATABASE_URL else {}` */
  function ConnectArgsFor(url: string): (a: ConnectArgs)
    ensures a == CheckSameThreadOff <==> PyStr.Contains(url, "sqlite")
  {
    if PyStr.Contains(url, "sqlite") then CheckSameThreadOff else NoArgs
  }

  /** The default configuration is SQLite, so same-thread checking is switched off. */
  lemma DefaultIsSqlite()
    ensures ConnectArgsFor(DatabaseUrl(None)) == CheckSameThreadOff
  {
    DefaultUrlUnchanged();
    assert DefaultUrl[..6] == "sqlite";
  }
}
