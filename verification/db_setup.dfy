/**
  * Database setup: choosing between a local SQLite file and a remote Turso (libSQL) database,
  * opening the connection once, and creating the schema on Turso one statement at a time.
  */
module DbSetup {
  import opened Wrappers
  import opened Text
  import opened Seqs

  /** The runtime configuration; a setting that is not given is the empty string. */
  datatype Config = Config(tursoDatabaseUrl: string, tursoAuthToken: string, databaseUrl: string)

  /** The connection `getDatabase` hands out. */
  datatype Handle = SqliteDb(path: string) | LibsqlDb(url: string, authToken: string)

  datatype DbError =
    | TursoUrlRequired    // 'Turso database URL is required'
    | TursoConnectFailed  // the libSQL client could not be created
    | TursoInUse          // 'Cannot use getSqlite() with Turso. Use getDatabase() instead.'

  const MemoryPath: string := ":memory:"

  /** Turso is used when its URL is set or the database URL has a libSQL or Turso scheme. */
  predicate UseTurso(cfg: Config) {
    cfg.tursoDatabaseUrl != ""
    || StartsWith(cfg.databaseUrl, "libsql://")
    || StartsWith(cfg.databaseUrl, "turso://")
  }

  /** `tursoUrl || dbUrl`. */
  function TursoUrl(cfg: Config): (url: string)
    ensures UseTurso(cfg) ==> url != ""
    ensures cfg.tursoDatabaseUrl != "" ==> url == cfg.tursoDatabaseUrl
  {
    if cfg.tursoDatabaseUrl != "" then cfg.tursoDatabaseUrl else cfg.databaseUrl
  }

  /** `dbUrl.replace('file:', '') || ':memory:'`. */
  function SqlitePath(databaseUrl: string): (path: string)
    ensures path != ""
    ensures !Contains(databaseUrl, "file:") && databaseUrl != "" ==> path == databaseUrl
    ensures databaseUrl == "" ==> path == MemoryPath
  {
    var p := RemoveFirst(databaseUrl, "file:");
    if p == "" then MemoryPath else p
  }

  /** A `file:` URL names the file after the scheme. */
  lemma FileUrlPath(file: string)
    requires file != ""
    ensures SqlitePath("file:" + file) == file
  {
    assert "file:" <= "file:" + file;
  }

  /**
    * What a first `getDatabase` call produces, where `opens` says whether opening the chosen
    * database (and, for SQLite, creating its schema) succeeds.
    */
  function Connect(cfg: Config, opens: bool): (r: Result<Handle, DbError>)
    ensures UseTurso(cfg) ==> (r.Success? <==> opens)
    ensures UseTurso(cfg) && r.Failure? ==> r.error == TursoConnectFailed
    ensures r.Success? ==> (r.value.LibsqlDb? <==> UseTurso(cfg))
    ensures r.Success? && r.value.LibsqlDb? ==> r.value.url != ""
    ensures !UseTurso(cfg) ==> r.Success? && r.value.path != ""
    ensures !UseTurso(cfg) && !opens ==> r == Success(SqliteDb(MemoryPath))
  {
    if UseTurso(cfg) then
      var url := TursoUrl(cfg);
      if url == "" then Failure(TursoUrlRequired)
      else if !opens then Failure(TursoConnectFailed)
      else Success(LibsqlDb(url, cfg.tursoAuthToken))
    else if opens then Success(SqliteDb(SqlitePath(cfg.databaseUrl)))
    else Success(SqliteDb(MemoryPath))
  }

  /** The Turso branch never reports a missing URL: choosing Turso implies a URL is at hand. */
  lemma NeverUrlRequired(cfg: Config, opens: bool)
    ensures Connect(cfg, opens) != Failure(TursoUrlRequired)
  {
  }

  // ---------------------------------------------------------------------------------------
  // Statements for Turso
  // ---------------------------------------------------------------------------------------

  /** A trimmed chunk that is executed: not empty and not starting with a comment marker. */
  predicate Keep(s: string) {
    |s| > 0 && !StartsWith(s, "--")
  }

  /** `schemaSQL.split(';').map(s => s.trim()).filter(s => s.length > 0 && !s.startsWith('--'))`. */
  function SchemaStatements(sql: string): (r: seq<string>)
    ensures forall st :: st in r ==> Keep(st)
  {
    MapFilter(Split(sql, ';'), Trim, Keep)
  }

  /** Only white space. */
  predicate Blank(s: string) {
    forall i :: 0 <= i < |s| ==> IsSpace(s[i])
  }

  /** One SQL comment line. */
  predicate CommentLine(c: string) {
    StartsWith(c, "--") && '\n' !in c && ';' !in c
  }

  /** One statement with no white space at its ends and no ';' inside. */
  predicate PlainStatement(st: string) {
    |st| > 0 && !IsSpace(st[0]) && !IsSpace(st[|st| - 1]) && !StartsWith(st, "--") && ';' !in st
  }

  /** A chunk between two ';' in which a comment line precedes the statement. */
  function CommentedChunk(lead: string, comment: string, pad: string, st: string): string {
    lead + (comment + ("\n" + (pad + st)))
  }

  /** A statement chunk drops out when its trimmed text begins with a comment. */
  lemma CommentedChunkDropped(pre: seq<string>, c: string, post: seq<string>)
    requires forall i :: 0 <= i < |pre| ==> ';' !in pre[i]
    requires forall i :: 0 <= i < |post| ==> ';' !in post[i]
    requires ';' !in c && StartsWith(Trim(c), "--")
    ensures SchemaStatements(Join(pre + [c] + post, ';'))
      == MapFilter(pre, Trim, Keep) + MapFilter(post, Trim, Keep)
  {
    var chunks := pre + [c] + post;
    assert forall i :: 0 <= i < |chunks| ==> ';' !in chunks[i];
    SplitJoin(chunks, ';');
    assert !Keep(Trim(c));
    assert [c][1..] == [];
    var none := MapFilter([c], Trim, Keep);
    assert none == [];
    MapFilterAppend(pre, [c], Trim, Keep);
    var left := MapFilter(pre + [c], Trim, Keep);
    assert left == MapFilter(pre, Trim, Keep);
    MapFilterAppend(pre + [c], post, Trim, Keep);
  }

  /** The comment line in front of the first index of the schema, and that index. */
  function IndexComment(): string { "-- Indexes" + " for performance" }
  function IndexStatement(): string {
    "CREATE INDEX " + "IF NOT EXISTS " + "idx_transactions" + "_block ON " + "transactions" + "(block_height)"
  }

  /** The chunk between the last table's ';' and the first index's ';'. */
  function IndexChunk(): string {
    CommentedChunk("\n\n    ", IndexComment(), "    ", IndexStatement())
  }

  lemma IndexCommentShape()
    ensures CommentLine(IndexComment())
  {
    assert ';' !in "-- Indexes" && '\n' !in "-- Indexes";
    assert ';' !in " for performance" && '\n' !in " for performance";
    assert IndexComment()[0] == '-' && IndexComment()[1] == '-';
  }

  lemma IndexStatementShape()
    ensures PlainStatement(IndexStatement())
  {
    assert ';' !in "CREATE INDEX ";
    assert ';' !in "IF NOT EXISTS ";
    assert ';' !in "idx_transactions";
    assert ';' !in "_block ON ";
    assert ';' !in "transactions";
    assert ';' !in "(block_height)";
    assert IndexStatement()[0] == 'C';
    assert IndexStatement()[|IndexStatement()| - 1] == ')';
  }

  /** The index chunk has the shape of a commented chunk. */
  lemma IndexChunkShape()
    ensures Blank("\n\n    ") && Blank("    ")
    ensures CommentLine(IndexComment()) && PlainStatement(IndexStatement())
  {
    IndexCommentShape();
    IndexStatementShape();
  }

  /**
    * Whatever surrounds it, a schema holding the index chunk yields the statements of the other
    * chunks only: `idx_transactions_block` is never created on Turso.
    */
  lemma IndexStatementDropped(pre: seq<string>, post: seq<string>)
    requires forall i :: 0 <= i < |pre| ==> ';' !in pre[i]
    requires forall i :: 0 <= i < |post| ==> ';' !in post[i]
    ensures SchemaStatements(Join(pre + [IndexChunk()] + post, ';'))
      == MapFilter(pre, Trim, Keep) + MapFilter(post, Trim, Keep)
  {
    IndexChunkShape();
    CommentedChunkFacts("\n\n    ", IndexComment(), "    ", IndexStatement());
    CommentedChunkDropped(pre, IndexChunk(), post);
  }

  // ---------------------------------------------------------------------------------------
  // Corrected statement splitting
  // ---------------------------------------------------------------------------------------

  /** The text after the first line break, or nothing when there is none. */
  function DropFirstLine(s: string): (r: string)
    ensures |s| > 0 ==> |r| < |s|
    ensures '\n' !in s ==> r == ""
    decreases |s|
  {
    if s == [] then []
    else if s[0] == '\n' then s[1..]
    else DropFirstLine(s[1..])
  }

  lemma {:induction false} DropFirstLineAfter(line: string, rest: string)
    requires '\n' !in line
    ensures DropFirstLine(line + ("\n" + rest)) == rest
    decreases |line|
  {
    if line == [] {
      assert line + ("\n" + rest) == "\n" + rest;
    } else {
      assert (line + ("\n" + rest))[1..] == line[1..] + ("\n" + rest);
      DropFirstLineAfter(line[1..], rest);
    }
  }

  /** The trimmed chunk with its leading comment lines removed. */
  function StripLeadingComments(s: string): (r: string)
    ensures |r| <= |s|
    ensures !StartsWith(r, "--")
    ensures |r| > 0 ==> !IsSpace(r[0]) && !IsSpace(r[|r| - 1])
    decreases |s|
  {
    var t := Trim(s);
    if StartsWith(t, "--") then StripLeadingComments(DropFirstLine(t)) else t
  }

  /** A chunk that does not open with a comment is the trimmed chunk, as before. */
  lemma StripWithoutComment(s: string)
    requires !StartsWith(Trim(s), "--")
    ensures StripLeadingComments(s) == Trim(s)
  {
  }

  /** The schema's statements with leading comment lines removed instead of whole chunks dropped. */
  function FixedSchemaStatements(sql: string): (r: seq<string>)
    ensures forall st :: st in r ==> Keep(st)
  {
    MapFilter(Split(sql, ';'), StripLeadingComments, Keep)
  }

  /** Where no chunk opens with a comment, the corrected splitting agrees with the original. */
  lemma FixedAgrees(sql: string)
    requires forall c :: c in Split(sql, ';') ==> !StartsWith(Trim(c), "--")
    ensures FixedSchemaStatements(sql) == SchemaStatements(sql)
  {
    var chunks := Split(sql, ';');
    forall i | 0 <= i < |chunks|
      ensures StripLeadingComments(chunks[i]) == Trim(chunks[i])
    {
      assert chunks[i] in chunks;
      StripWithoutComment(chunks[i]);
    }
    MapFilterAgree(chunks, StripLeadingComments, Keep, Trim, Keep);
  }

  lemma CommentedChunkNoSeparator(lead: string, comment: string, pad: string, st: string)
    requires Blank(lead) && Blank(pad) && CommentLine(comment) && PlainStatement(st)
    ensures ';' !in CommentedChunk(lead, comment, pad, st)
  {
    assert !IsSpace(';');
    assert ';' !in lead && ';' !in pad;
  }

  /** What trimming makes of a commented chunk: the comment line opens the trimmed text. */
  lemma CommentedChunkTrim(lead: string, comment: string, pad: string, st: string)
    requires Blank(lead) && StartsWith(comment, "--")
    requires |st| > 0 && !IsSpace(st[|st| - 1])
    ensures Trim(CommentedChunk(lead, comment, pad, st)) == comment + ("\n" + (pad + st))
    ensures StartsWith(Trim(CommentedChunk(lead, comment, pad, st)), "--")
  {
    var tail := "\n" + (pad + st);
    var body := comment + tail;
    assert tail[|tail| - 1] == st[|st| - 1];
    assert body[|body| - 1] == tail[|tail| - 1];
    assert body[0] == comment[0];
    TrimPadded(lead, body);
    assert body[..2] == comment[..2];
  }

  /** Comment stripping turns a commented chunk into its statement. */
  lemma CommentedChunkFacts(lead: string, comment: string, pad: string, st: string)
    requires Blank(lead) && Blank(pad) && CommentLine(comment) && PlainStatement(st)
    ensures ';' !in CommentedChunk(lead, comment, pad, st)
    ensures StartsWith(Trim(CommentedChunk(lead, comment, pad, st)), "--")
    ensures StripLeadingComments(CommentedChunk(lead, comment, pad, st)) == st
  {
    CommentedChunkNoSeparator(lead, comment, pad, st);
    CommentedChunkTrim(lead, comment, pad, st);
    var body := comment + ("\n" + (pad + st));
    DropFirstLineAfter(comment, pad + st);
    assert DropFirstLine(body) == pad + st;
    TrimPadded(pad, st);
    assert StripLeadingComments(pad + st) == st;
  }

  /** A commented chunk yields its statement under the corrected splitting. */
  lemma CommentedChunkKept(pre: seq<string>, c: string, st: string, post: seq<string>)
    requires forall i :: 0 <= i < |pre| ==> ';' !in pre[i]
    requires forall i :: 0 <= i < |post| ==> ';' !in post[i]
    requires ';' !in c && StripLeadingComments(c) == st && st != ""
    ensures FixedSchemaStatements(Join(pre + [c] + post, ';'))
      == MapFilter(pre, StripLeadingComments, Keep) + [st] + MapFilter(post, StripLeadingComments, Keep)
  {
    var chunks := pre + [c] + post;
    assert forall i :: 0 <= i < |chunks| ==> ';' !in chunks[i];
    SplitJoin(chunks, ';');
    assert Keep(StripLeadingComments(c));
    assert [c][1..] == [];
    var one := MapFilter([c], StripLeadingComments, Keep);
    assert one == [st];
    MapFilterAppend(pre, [c], StripLeadingComments, Keep);
    var left := MapFilter(pre + [c], StripLeadingComments, Keep);
    assert left == MapFilter(pre, StripLeadingComments, Keep) + [st];
    MapFilterAppend(pre + [c], post, StripLeadingComments, Keep);
  }

  /** With the corrected splitting the index chunk yields exactly the index statement. */
  lemma IndexStatementKept(pre: seq<string>, post: seq<string>)
    requires forall i :: 0 <= i < |pre| ==> ';' !in pre[i]
    requires forall i :: 0 <= i < |post| ==> ';' !in post[i]
    ensures FixedSchemaStatements(Join(pre + [IndexChunk()] + post, ';'))
      == MapFilter(pre, StripLeadingComments, Keep) + [IndexStatement()]
         + MapFilter(post, StripLeadingComments, Keep)
  {
    IndexChunkShape();
    CommentedChunkFacts("\n\n    ", IndexComment(), "    ", IndexStatement());
    CommentedChunkKept(pre, IndexChunk(), IndexStatement(), post);
  }

  // ---------------------------------------------------------------------------------------
  // The connection globals
  // ---------------------------------------------------------------------------------------

  /** A libSQL client: the statements sent to it, and those the remote database applied. */
  class LibsqlClient {
    const url: string
    const authToken: string
    var attempted: seq<string>
    var applied: seq<string>

    constructor (url: string, authToken: string)
      ensures this.url == url && this.authToken == authToken
      ensures attempted == [] && applied == []
    {
      this.url := url;
      this.authToken := authToken;
      attempted := [];
      applied := [];
    }

    /**
      * `initializeSchemaTurso`: every statement is sent in order; one the database refuses
      * (`succeeds` is false, say because the table already exists) is passed over and the
      * loop goes on.
      */
    method ExecuteSchema(statements: seq<string>, succeeds: string -> bool)
      modifies this
      ensures attempted == old(attempted) + statements
      ensures applied == old(applied) + Filter(statements, succeeds)
    {
      var i := 0;
      while i < |statements|
        invariant 0 <= i <= |statements|
        invariant attempted == old(attempted) + statements[..i]
        invariant applied == old(applied) + Filter(statements[..i], succeeds)
      {
        var st := statements[i];
        ghost var done := statements[..i];
        ghost var kept := if succeeds(st) then [st] else [];
        assert statements[..i + 1] == done + [st];
        FilterSnoc(done, st, succeeds);
        attempted := attempted + [st];
        if succeeds(st) {
          applied := applied + [st];
        }
        assert applied == old(applied) + (Filter(done, succeeds) + kept);
        i := i + 1;
      }
      assert statements[..i] == statements;
    }
  }

  /** The module globals `_db`, `_sqlite`, `_libsql` and `_isTurso` of the database utility. */
  class Database {
    var db: Option<Handle>
    var sqlite: Option<string>
    var libsql: LibsqlClient?
    var isTurso: bool

    constructor ()
      ensures db.None? && sqlite.None? && libsql == null && !isTurso
    {
      db := None;
      sqlite := None;
      libsql := null;
      isTurso := false;
    }

    /**
      * `getDatabase()`: the first call connects as `Connect` says; once a connection is held,
      * every later call returns it unchanged, whatever the configuration is by then.
      */
    method GetDatabase(cfg: Config, opens: bool) returns (r: Result<Handle, DbError>)
      modifies this
      ensures old(db).Some? ==> r == Success(old(db).value) && unchanged(this)
      ensures old(db).None? ==> r == Connect(cfg, opens) && isTurso == UseTurso(cfg)
      ensures old(db).None? && r.Success? ==> db == Some(r.value)
      ensures old(db).None? && r.Failure? ==> db.None?
      ensures old(db).None? && r.Success? && r.value.SqliteDb? ==>
        sqlite == Some(r.value.path) && libsql == old(libsql)
      ensures old(db).None? && r.Success? && r.value.LibsqlDb? ==>
        libsql != null && fresh(libsql) && libsql.url == r.value.url
        && libsql.attempted == [] && libsql.applied == [] && sqlite == old(sqlite)
      ensures old(db).None? && r.Failure? ==> sqlite == old(sqlite) && libsql == old(libsql)
    {
      if db.Some? {
        return Success(db.value);
      }
      if UseTurso(cfg) {
        isTurso := true;
        var url := TursoUrl(cfg);
        if url == "" {
          return Failure(TursoUrlRequired);
        }
        if !opens {
          return Failure(TursoConnectFailed);
        }
        libsql := new LibsqlClient(url, cfg.tursoAuthToken);
        db := Some(LibsqlDb(url, cfg.tursoAuthToken));
        return Success(LibsqlDb(url, cfg.tursoAuthToken));
      } else {
        isTurso := false;
        var path := if opens then SqlitePath(cfg.databaseUrl) else MemoryPath;
        sqlite := Some(path);
        db := Some(SqliteDb(path));
        return Success(SqliteDb(path));
      }
    }

    /**
      * `getSqlite()` as written: refused while Turso is in use, otherwise initialising first
      * when no SQLite connection is open. When that initialisation picks Turso, the function
      * hands back no connection (`None`) instead of refusing.
      */
    method GetSqlite(cfg: Config, opens: bool) returns (r: Result<Option<string>, DbError>)
      modifies this
      ensures old(isTurso) ==> r == Failure(TursoInUse) && unchanged(this)
      ensures !old(isTurso) && old(sqlite).Some? ==> r == Success(old(sqlite)) && unchanged(this)
      ensures !old(isTurso) && old(sqlite).None? && old(db).Some? ==> r == Success(None) && unchanged(this)
      ensures !old(isTurso) && old(sqlite).None? && old(db).None? ==>
        var got := Connect(cfg, opens);
        && isTurso == UseTurso(cfg)
        && db == (if got.Success? then Some(got.value) else None)
        && sqlite == (if got.Success? && got.value.SqliteDb? then Some(got.value.path) else None)
        && (got.Failure? ==> r == Failure(got.error) && libsql == old(libsql))
        && (got.Success? && got.value.SqliteDb? ==> r == Success(Some(got.value.path)) && libsql == old(libsql))
        && (got.Success? && got.value.LibsqlDb? ==> r == Success(None) && fresh(libsql))
    {
      if isTurso {
        return Failure(TursoInUse);
      }
      if sqlite.None? {
        var got := GetDatabase(cfg, opens);
        if got.Failure? {
          return Failure(got.error);
        }
      }
      return Success(sqlite);
    }

    /** `getSqlite()` as evidently intended: a SQLite connection, or a refusal. */
    method GetSqliteChecked(cfg: Config, opens: bool) returns (r: Result<string, DbError>)
      modifies this
      ensures old(isTurso) ==> r == Failure(TursoInUse) && unchanged(this)
      ensures !old(isTurso) && old(sqlite).Some? ==> r == Success(old(sqlite).value) && unchanged(this)
      ensures !old(isTurso) && old(sqlite).None? && old(db).None? ==>
        (UseTurso(cfg) ==> r.Failure?)
        && (!UseTurso(cfg) ==> r == Success(Connect(cfg, opens).value.path))
    {
      if isTurso {
        return Failure(TursoInUse);
      }
      if sqlite.None? {
        var got := GetDatabase(cfg, opens);
        if got.Failure? {
          return Failure(got.error);
        }
        if isTurso {
          return Failure(TursoInUse);
        }
        if sqlite.None? {
          return Failure(TursoInUse);
        }
      }
      return Success(sqlite.value);
    }

    /** `initializeTursoSchema()`: runs the statements only on an open Turso connection. */
    method InitializeTursoSchema(sql: string, succeeds: string -> bool)
      modifies libsql
      ensures !isTurso && libsql != null ==> unchanged(libsql)
      ensures isTurso && libsql != null ==>
        libsql.attempted == old(libsql.attempted) + SchemaStatements(sql)
        && libsql.applied == old(libsql.applied) + Filter(SchemaStatements(sql), succeeds)
    {
      if isTurso && libsql != null {
        libsql.ExecuteSchema(SchemaStatements(sql), succeeds);
      }
    }
  }

  /**
    * As written, a first `getSqlite()` call under a Turso configuration connects to Turso and
    * then returns no SQLite connection rather than refusing.
    */
  method GetSqliteUnderTurso(cfg: Config) returns (r: Result<Option<string>, DbError>)
    requires UseTurso(cfg)
    ensures r == Success(None)
  {
    var d := new Database();
    r := d.GetSqlite(cfg, true);
  }

  /** The corrected `getSqlite()` refuses in the same situation. */
  method GetSqliteCheckedUnderTurso(cfg: Config) returns (r: Result<string, DbError>)
    requires UseTurso(cfg)
    ensures r.Failure?
  {
    var d := new Database();
    r := d.GetSqliteChecked(cfg, true);
  }
}
