/**
 * The dialog that adds or edits a saved SSH server: it edits the profile object it is given
 * (or a fresh one), shows its fields in text boxes, and on save checks the boxes in order
 * and writes the trimmed values back into that same object.
 */
module SshConfigForm {
  import opened Wrappers
  import opened Text
  import opened Models

  /** An SSH profile as a mutable object: the dialog writes into the caller's instance. */
  class Profile {
    var id: int
    var name: string
    var host: string
    var port: int
    var username: string
    var password: string
    var lastUsed: Option<int>

    /** A new profile: no id, no name or host, port 22, last used now. */
    constructor Fresh(now: int)
      ensures id == 0 && name == "" && host == "" && port == 22
      ensures username == "" && password == "" && lastUsed == Some(now)
    {
      id, name, host, port := 0, "", "", 22;
      username, password, lastUsed := "", "", Some(now);
    }

    /** Every field is set from a value, the id included. */
    method Assign(v: SshProfile)
      modifies this
      ensures Value() == v
    {
      id, name, host, port := v.id, v.name, v.host, v.port;
      username, password, lastUsed := v.username, v.password, v.lastUsed;
    }

    /** The profile's current value. */
    function Value(): SshProfile
      reads this
    {
      SshProfile(id, name, host, port, username, password, lastUsed)
    }
  }

  datatype DialogResult = NoResult | Ok | Cancel

  /** The dialog's title: adding a server when the profile has no id yet, editing otherwise. */
  function Title(id: int): (t: string)
    ensures t == "添加SSH服务器" <==> id == 0
    ensures t == "编辑SSH服务器" <==> id != 0
  {
    if id == 0 then "添加SSH服务器" else "编辑SSH服务器"
  }

  /** The port box's initial text: "22" for an unset port, the port number otherwise. */
  function PortText(port: int): string {
    if port == 0 then "22" else IntToString(port)
  }

  /** The port box of a profile with a 32-bit port reads back as that port, or 22 when it was unset. */
  lemma PortTextParses(port: int)
    requires MinInt32 <= port <= MaxInt32
    ensures ParseInt32(PortText(port)) == Some(if port == 0 then 22 else port)
  {
    if port == 0 {
      ParseIntToString(22);
      assert IntToString(22) == "22" by {
        assert NatToDigits(22) == "22";
      }
    } else {
      ParseIntToString(port);
    }
  }

  /** The save checks, in the order they run. */
  datatype Problem = NameMissing | HostMissing | PortInvalid | UsernameMissing | PasswordMissing

  function Rank(p: Problem): nat {
    match p
    case NameMissing => 0
    case HostMissing => 1
    case PortInvalid => 2
    case UsernameMissing => 3
    case PasswordMissing => 4
  }

  /** The message shown for a failed check. */
  function Message(p: Problem): string {
    match p
    case NameMissing => "请输入服务器名称"
    case HostMissing => "请输入主机地址"
    case PortInvalid => "端口号必须是有效的数字"
    case UsernameMissing => "请输入用户名"
    case PasswordMissing => "请输入密码"
  }

  /** Each check has its own message, so the message names the check that failed. */
  lemma MessageInjective(p: Problem, q: Problem)
    requires Message(p) == Message(q)
    ensures p == q
  {
    assert Message(p)[0] == Message(q)[0];
    assert Message(p)[3] == Message(q)[3];
  }

  /** The text boxes of the dialog. */
  datatype Boxes = Boxes(name: string, host: string, port: string, username: string, password: string)

  /** Whether one check fails. */
  predicate Fails(p: Problem, b: Boxes) {
    match p
    case NameMissing => IsBlank(b.name)
    case HostMissing => IsBlank(b.host)
    case PortInvalid => ParseInt32(b.port).None?
    case UsernameMissing => IsBlank(b.username)
    case PasswordMissing => IsBlank(b.password)
  }

  /** The first failing check, or the parsed port when all pass. */
  function Check(b: Boxes): (r: Result<int, Problem>)
    ensures r.Success? <==> forall p :: !Fails(p, b)
    ensures r.Success? ==> Some(r.value) == ParseInt32(b.port)
    ensures r.Failure? ==> Fails(r.error, b)
    ensures r.Failure? ==> forall p | Rank(p) < Rank(r.error) :: !Fails(p, b)
  {
    if IsBlank(b.name) then
      assert Fails(NameMissing, b);
      Failure(NameMissing)
    else if IsBlank(b.host) then
      assert Fails(HostMissing, b);
      Failure(HostMissing)
    else if ParseInt32(b.port).None? then
      assert Fails(PortInvalid, b);
      Failure(PortInvalid)
    else if IsBlank(b.username) then
      assert Fails(UsernameMissing, b);
      Failure(UsernameMissing)
    else if IsBlank(b.password) then
      assert Fails(PasswordMissing, b);
      Failure(PasswordMissing)
    else Success(ParseInt32(b.port).value)
  }

  /** Any 32-bit port is accepted, including 0, negative ports and ports above 65535. */
  lemma AnyPortAccepted(name: string, host: string, port: int, username: string, password: string)
    requires !IsBlank(name) && !IsBlank(host) && !IsBlank(username) && !IsBlank(password)
    requires MinInt32 <= port <= MaxInt32
    ensures Check(Boxes(name, host, IntToString(port), username, password)) == Success(port)
  {
    ParseIntToString(port);
  }

  /** The dialog. */
  class Dialog {
    const config: Profile
    const title: string
    var boxes: Boxes
    var result: DialogResult

    /**
     * The dialog opens on the given profile, or on a fresh one; the boxes show the profile's
     * fields, with "22" for an unset port.
     */
    constructor (given: Option<Profile>, now: int)
      ensures given.Some? ==> config == given.value
      ensures given.None? ==> fresh(config) && config.Value() == SshProfile(0, "", "", 22, "", "", Some(now))
      ensures title == Title(config.id)
      ensures boxes == Boxes(config.name, config.host, PortText(config.port), config.username, config.password)
      ensures result == NoResult
    {
      var p: Profile;
      if given.Some? {
        p := given.value;
      } else {
        p := new Profile.Fresh(now);
      }
      config := p;
      title := Title(p.id);
      boxes := Boxes(p.name, p.host, PortText(p.port), p.username, p.password);
      result := NoResult;
    }

    /** The user edits the text boxes. */
    method Edit(b: Boxes)
      modifies this`boxes
      ensures boxes == b
    {
      boxes := b;
    }

    /**
     * The save button. The first failing check shows its message, leaves the dialog open and
     * the profile untouched. Otherwise name, host and user are stored trimmed, the password as
     * typed, the port as parsed, the time of use is now, and the dialog closes with OK.
     */
    method Save(now: int) returns (shown: Option<string>)
      modifies config, this`result
      ensures var r := Check(boxes);
        && (r.Failure? ==> shown == Some(Message(r.error)) && result == NoResult
                           && config.Value() == old(config.Value()))
        && (r.Success? ==> shown.None? && result == Ok
                           && config.Value() == SshProfile(old(config.id), Trim(boxes.name), Trim(boxes.host),
                                                           r.value, Trim(boxes.username), boxes.password, Some(now)))
    {
      var checked := Check(boxes);
      if checked.Failure? {
        result := NoResult;
        return Some(Message(checked.error));
      }
      config.Assign(SshProfile(config.id, Trim(boxes.name), Trim(boxes.host), checked.value,
                               Trim(boxes.username), boxes.password, Some(now)));
      result := Ok;
      shown := None;
    }
  }

  /** A saved name, host and user are never blank and carry no surrounding white space. */
  lemma SavedFieldsTrimmed(b: Boxes)
    requires Check(b).Success?
    ensures Trim(b.name) != [] && Trim(b.host) != [] && Trim(b.username) != []
    ensures Trim(Trim(b.name)) == Trim(b.name)
    ensures Trim(Trim(b.host)) == Trim(b.host)
    ensures Trim(Trim(b.username)) == Trim(b.username)
  {
    assert !Fails(NameMissing, b) && !Fails(HostMissing, b) && !Fails(UsernameMissing, b);
    TrimEnds(b.name);
    TrimEnds(b.host);
    TrimEnds(b.username);
    TrimIdempotent(b.name);
    TrimIdempotent(b.host);
    TrimIdempotent(b.username);
  }
}
