/**
 * The database restore window: the ordered input checks, the shell command that feeds an SQL
 * file to the mysql client, the simulated progress counter that advances while the client
 * runs, and how the client's exit code and standard error decide success.
 */
module Restore {
  import opened Wrappers
  import opened Text
  import opened Paths

  /** The window's text boxes. */
  datatype Form = Form(
    ip: string, port: string, username: string, password: string,
    database: string, mysqlPath: string, sqlFile: string)

  /** The text boxes as the window opens them. */
  const DefaultForm: Form := Form("localhost", "3306", "", "", "",
                                  "C:\\Program Files\\MySQL\\MySQL Server 8.0\\bin\\mysql.exe", "")

  /** The checks of the restore button, in the order they run. */
  datatype Rejection = NoSqlFile | NoDatabase | MySqlMissing

  function Rank(c: Rejection): nat {
    match c
    case NoSqlFile => 0
    case NoDatabase => 1
    case MySqlMissing => 2
  }

  /** Whether one check fails; `files` is the set of local files that exist. */
  predicate Fails(c: Rejection, form: Form, files: set<string>) {
    match c
    case NoSqlFile => form.sqlFile == ""
    case NoDatabase => form.database == ""
    case MySqlMissing => form.mysqlPath !in files
  }

  /** The first failing check, if any. */
  function Validate(form: Form, files: set<string>): (r: Option<Rejection>)
    ensures r.None? <==> forall c :: !Fails(c, form, files)
    ensures r.Some? ==> Fails(r.value, form, files)
    ensures r.Some? ==> forall c | Rank(c) < Rank(r.value) :: !Fails(c, form, files)
  {
    if form.sqlFile == "" then
      assert Fails(NoSqlFile, form, files);
      Some(NoSqlFile)
    else if form.database == "" then
      assert Fails(NoDatabase, form, files);
      Some(NoDatabase)
    else if form.mysqlPath !in files then
      assert Fails(MySqlMissing, form, files);
      Some(MySqlMissing)
    else None
  }

  /**
   * The command run through cmd.exe: change to the client's directory, then run the client
   * with host, port, user and quoted password against the database, the SQL file as input.
   */
  function RestoreCommand(form: Form): (cmd: string)
    ensures StartsWith(cmd, "cd /d \"" + DirectoryName(form.mysqlPath) + "\" && mysql -h " + form.ip)
    ensures Contains(cmd, " -P " + form.port + " -u " + form.username + " -p\"" + form.password + "\" ")
    ensures EndsWith(cmd, form.database + " < \"" + form.sqlFile + "\"")
  {
    var head := "cd /d \"" + DirectoryName(form.mysqlPath) + "\" && mysql -h " + form.ip;
    var creds := " -P " + form.port + " -u " + form.username + " -p\"" + form.password + "\" ";
    var tail := form.database + " < \"" + form.sqlFile + "\"";
    ContainsInConcat(head, creds, tail, creds);
    assert (head + creds + tail)[..|head|] == head;
    assert (head + creds + tail)[|head + creds|..] == tail;
    head + creds + tail
  }

  // ---------------------------------------------------------------------------------------
  // Outcome

  /** How a restore ends. */
  datatype Outcome =
    | Rejected(reason: Rejection)
    | Errored(message: string)
    | AccessDenied
    | Failed(stderr: string)
    | Restored

  /** The client failed: a non-zero exit code, or standard error that is not just a warning. */
  predicate RestoreFailed(exitCode: int, stderr: string) {
    exitCode != 0 || (stderr != "" && !Contains(stderr, "Warning"))
  }

  /**
   * The verdict on a finished client: failure as above, reported as denied access when the
   * error mentions it and with the error text otherwise; success otherwise.
   */
  function Classify(exitCode: int, stderr: string): (o: Outcome)
    ensures o == Restored <==> exitCode == 0 && (stderr == "" || Contains(stderr, "Warning"))
    ensures o == AccessDenied <==> RestoreFailed(exitCode, stderr) && Contains(stderr, "Access denied")
    ensures o.Failed? <==> RestoreFailed(exitCode, stderr) && !Contains(stderr, "Access denied")
    ensures o.Failed? ==> o.stderr == stderr
  {
    if exitCode != 0 || (stderr != "" && !Contains(stderr, "Warning")) then
      if Contains(stderr, "Access denied") then AccessDenied else Failed(stderr)
    else Restored
  }

  /** A successful exit whose only complaint is a warning still counts as restored. */
  lemma WarningIsBenign(prefix: string, suffix: string)
    ensures Classify(0, prefix + "Warning" + suffix) == Restored
  {
    ContainsInConcat(prefix, "Warning", suffix, "Warning");
  }

  /** Denied access is reported as such even when the text also carries a warning, if the exit code is non-zero. */
  lemma DeniedBeatsWarning(exitCode: int, prefix: string, suffix: string)
    requires exitCode != 0
    ensures Classify(exitCode, prefix + "Access denied" + suffix) == AccessDenied
  {
    ContainsInConcat(prefix, "Access denied", suffix, "Access denied");
  }

  /** The message box of a failed or successful restore. */
  function Message(o: Outcome): string {
    match o
    case Rejected(NoSqlFile) => "请选择要恢复的SQL文件"
    case Rejected(NoDatabase) => "请输入要恢复的数据库名称"
    case Rejected(MySqlMissing) => "MySQL执行文件路径无效"
    case Errored(m) => "发生错误:\n" + m
    case AccessDenied => "数据库访问被拒绝，请检查用户名和密码是否正确。"
    case Failed(e) => "数据库恢复失败:\n" + e
    case Restored => "数据库恢复成功！"
  }

  /** Different outcomes show different message boxes, so the user can always tell them apart. */
  lemma MessageInjective(a: Outcome, b: Outcome)
    requires Message(a) == Message(b)
    ensures a == b
  {
    var m := Message(a);
    if a.Errored? && b.Errored? {
      assert a.message == m[|"发生错误:\n"|..] == b.message;
    } else if a.Failed? && b.Failed? {
      assert a.stderr == m[|"数据库恢复失败:\n"|..] == b.stderr;
    } else {
      assert m[0] == Message(b)[0];
      assert m[3] == Message(b)[3];
      assert m[5] == Message(b)[5];
    }
  }

  /**
   * What the outside world does during a restore: the local files that exist, the size of
   * the SQL file (or the exception reading it), and the client's exit code and standard
   * error (or the exception starting it).
   */
  datatype Effects = Effects(files: set<string>, fileSize: Result<nat, string>, client: Result<(int, string), string>)

  /** The restore button: the checks, then the file size, the client run and its verdict. */
  function RestoreOutcome(form: Form, fx: Effects): (o: Outcome)
    ensures o.Rejected? <==> Validate(form, fx.files).Some?
    ensures o.Rejected? ==> o.reason == Validate(form, fx.files).value
    ensures o == Restored ==>
      && Validate(form, fx.files).None? && fx.fileSize.Success? && fx.client.Success?
      && fx.client.value.0 == 0
    ensures Validate(form, fx.files).None? && fx.fileSize.Failure? ==> o == Errored(fx.fileSize.error)
    ensures Validate(form, fx.files).None? && fx.fileSize.Success? && fx.client.Failure? ==>
      o == Errored(fx.client.error)
    ensures Validate(form, fx.files).None? && fx.fileSize.Success? && fx.client.Success? ==>
      o == Classify(fx.client.value.0, fx.client.value.1)
  {
    var rej := Validate(form, fx.files);
    if rej.Some? then Rejected(rej.value)
    else if fx.fileSize.Failure? then Errored(fx.fileSize.error)
    else if fx.client.Failure? then Errored(fx.client.error)
    else Classify(fx.client.value.0, fx.client.value.1)
  }

  // ---------------------------------------------------------------------------------------
  // Simulated progress

  /** The amount the counter advances per accepted tick: one MiB. */
  const Chunk: nat := 1024 * 1024

  /** The counter after one accepted tick: one chunk more, never beyond the file size. */
  function Advance(processed: nat, total: nat): (next: nat)
    ensures processed <= total ==> processed <= next <= total
    ensures next == total || next == processed + Chunk
    ensures processed + Chunk <= total ==> next == processed + Chunk
    ensures processed + Chunk >= total ==> next == total
  {
    if processed + Chunk < total then processed + Chunk else total
  }

  /** The counter after `n` accepted ticks from zero. */
  function AfterTicks(n: nat, total: nat): (p: nat)
    ensures p <= total
  {
    if n == 0 then 0 else Advance(AfterTicks(n - 1, total), total)
  }

  /** After n accepted ticks the counter is n chunks, capped at the file size. */
  lemma {:induction false} AfterTicksClosedForm(n: nat, total: nat)
    ensures AfterTicks(n, total) == if n * Chunk < total then n * Chunk else total
  {
    if n > 0 {
      AfterTicksClosedForm(n - 1, total);
      assert (n - 1) * Chunk + Chunk == n * Chunk;
    }
  }

  /** The counter reaches the file size after exactly the ceiling of size over chunk ticks and stays there. */
  lemma TicksToComplete(n: nat, total: nat)
    ensures var needed := (total + Chunk - 1) / Chunk;
      AfterTicks(n, total) == total <==> n >= needed
  {
    var needed := (total + Chunk - 1) / Chunk;
    AfterTicksClosedForm(n, total);
    if n >= needed {
      assert needed * Chunk >= total;
      assert n * Chunk >= needed * Chunk;
    } else {
      assert n <= needed - 1;
      assert (needed - 1) * Chunk < total;
      assert n * Chunk <= (needed - 1) * Chunk;
    }
  }

  /** The counter the restore's timer drives. */
  class ProgressCounter {
    const total: nat
    var processed: nat

    ghost predicate Valid()
      reads this
    {
      processed <= total
    }

    /** The restore starts: nothing processed of a file of `size` bytes. */
    constructor (size: nat)
      ensures Valid() && total == size && processed == 0
    {
      total := size;
      processed := 0;
    }

    /**
     * A timer tick. Once the client has exited nothing changes; nor does it before any time
     * has elapsed. Otherwise the counter advances by a chunk, capped at the file size.
     */
    method Tick(hasExited: bool, elapsedMs: int)
      requires Valid()
      modifies this`processed
      ensures Valid()
      ensures old(processed) <= processed
      ensures hasExited || elapsedMs <= 0 ==> processed == old(processed)
      ensures !hasExited && elapsedMs > 0 ==> processed == Advance(old(processed), total)
    {
      if hasExited {
        return;
      }
      if elapsedMs > 0 {
        processed := if processed + Chunk < total then processed + Chunk else total;
      }
    }
  }
}
