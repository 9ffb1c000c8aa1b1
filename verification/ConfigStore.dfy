/**
 The client's configuration strings: who owns them as one URI after another is set,
 and what they say afterwards.
 */
module ConfigStore {
  import opened Bytes

  const ESP_OK := 0
  const ESP_FAIL := -1
  const ESP_ERR_NO_MEM := 0x101
  const ESP_ERR_INVALID_ARG := 0x102

  /** The fields the URL parser reports; an empty string or `None` where it found none. */
  datatype ParsedUri = ParsedUri(scheme: string, host: string, path: string, port: Option<int>, userinfo: string)

  datatype Texts = Texts(scheme: Option<string>, host: Option<string>, path: Option<string>,
                         username: Option<string>, password: Option<string>, uri: Option<string>, port: int)

  /** The position of the first ':' or, without one, the length. */
  function FirstColon(s: string): (k: nat)
    ensures k <= |s| && (k < |s| ==> s[k] == ':')
    ensures forall j :: 0 <= j < k ==> s[j] != ':'
  {
    if s == "" || s[0] == ':' then 0 else 1 + FirstColon(s[1..])
  }

  /** What a URI does to the stored strings. */
  function Update(t: Texts, u: ParsedUri): Texts {
    var k := FirstColon(u.userinfo);
    Texts(if u.scheme != "" then Some(u.scheme) else t.scheme,
          if u.host != "" then Some(u.host) else t.host,
          if u.path != "" then Some(u.path) else t.path,
          if u.userinfo != "" then Some(u.userinfo[..k]) else t.username,
          if k < |u.userinfo| then Some(u.userinfo[k + 1..]) else t.password,
          t.uri,
          if u.port.Some? then u.port.value else t.port)
  }

  // ------------------------------------------------------------- many URIs

  datatype Field = Scheme | Host | Path | Username | Password

  function Get(t: Texts, f: Field): Option<string> {
    match f
    case Scheme => t.scheme
    case Host => t.host
    case Path => t.path
    case Username => t.username
    case Password => t.password
  }

  /** The URI has `value` for the field; a user name and password are the parts of the
      userinfo before and after its first colon. */
  ghost predicate Supplies(u: ParsedUri, f: Field, value: string) {
    match f
    case Scheme => u.scheme == value != ""
    case Host => u.host == value != ""
    case Path => u.path == value != ""
    case Username =>
      && u.userinfo != "" && ':' !in value
      && (u.userinfo == value || value + ":" <= u.userinfo)
    case Password =>
      exists user: string :: ':' !in user && u.userinfo == user + ":" + value
  }

  function UpdateAll(t: Texts, uris: seq<ParsedUri>): Texts {
    if uris == [] then t else Update(UpdateAll(t, uris[..|uris| - 1]), uris[|uris| - 1])
  }

  lemma FirstColonAt(s: string, k: nat)
    requires k < |s| && s[k] == ':' && forall j :: 0 <= j < k ==> s[j] != ':'
    ensures FirstColon(s) == k
  {
    hide FirstColon;
    var f := FirstColon(s);
  }

  lemma SplitAt(s: string, k: nat, c: char)
    requires k < |s| && s[k] == c
    ensures s == s[..k] + [c] + s[k + 1..]
  {
    var user, password := s[..k], s[k + 1..];
    var whole := user + [c] + password;
    assert |whole| == |s|;
    forall i | 0 <= i < |s| ensures whole[i] == s[i] {
      if i > k {
        assert password[i - (k + 1)] == s[i];
      }
    }
    assert whole == s;
  }

  lemma SplitAtColon(s: string)
    requires FirstColon(s) < |s|
    ensures s == s[..FirstColon(s)] + ":" + s[FirstColon(s) + 1..]
  {
    var k := FirstColon(s);
    hide FirstColon;
    SplitAt(s, k, ':');
  }

  lemma UpdateSupplied(t: Texts, u: ParsedUri, f: Field, value: string)
    requires Supplies(u, f, value)
    ensures Get(Update(t, u), f) == Some(value)
  {
    hide FirstColon;
    if f == Password {
      var user: string :| ':' !in user && u.userinfo == user + ":" + value;
      forall j | 0 <= j < |user| ensures u.userinfo[j] != ':' {
        assert u.userinfo[j] == user[j];
      }
      FirstColonAt(u.userinfo, |user|);
      assert u.userinfo[|user| + 1..] == value;
    } else if f == Username && value + ":" <= u.userinfo {
      forall j | 0 <= j < |value| ensures u.userinfo[j] != ':' {
        assert u.userinfo[j] == (value + ":")[j];
      }
      FirstColonAt(u.userinfo, |value|);
      assert u.userinfo[..|value|] == (value + ":")[..|value|];
    } else if f == Username {
      assert FirstColon(u.userinfo) == |u.userinfo|;
      assert u.userinfo[..|u.userinfo|] == u.userinfo;
    }
  }

  lemma UpdateUnsupplied(t: Texts, u: ParsedUri, f: Field)
    requires forall value :: !Supplies(u, f, value)
    ensures Get(Update(t, u), f) == Get(t, f)
  {
    hide FirstColon;
    var k := FirstColon(u.userinfo);
    if k < |u.userinfo| {
      SplitAtColon(u.userinfo);
    }
    match f
    case Scheme => assert !Supplies(u, f, u.scheme);
    case Host => assert !Supplies(u, f, u.host);
    case Path => assert !Supplies(u, f, u.path);
    case Username => assert !Supplies(u, f, u.userinfo[..k]);
    case Password => assert k < |u.userinfo| ==> !Supplies(u, f, u.userinfo[k + 1..]);
  }

  /** After any sequence of URIs each field is that of the last URI which supplied it. */
  lemma {:induction false} LastUriWins(t: Texts, uris: seq<ParsedUri>, f: Field, k: nat, value: string)
    requires k < |uris| && Supplies(uris[k], f, value)
    requires forall j, v :: k < j < |uris| ==> !Supplies(uris[j], f, v)
    ensures Get(UpdateAll(t, uris), f) == Some(value)
    decreases |uris|
  {
    var last := |uris| - 1;
    if k == last {
      UpdateSupplied(UpdateAll(t, uris[..last]), uris[last], f, value);
    } else {
      LastUriWins(t, uris[..last], f, k, value);
      UpdateUnsupplied(UpdateAll(t, uris[..last]), uris[last], f);
    }
  }

  /** A field no URI supplied is as it was; a userinfo without ':' keeps the password. */
  lemma {:induction false} UnsuppliedStays(t: Texts, uris: seq<ParsedUri>, f: Field)
    requires forall j, v :: 0 <= j < |uris| ==> !Supplies(uris[j], f, v)
    ensures Get(UpdateAll(t, uris), f) == Get(t, f)
    decreases |uris|
  {
    if uris != [] {
      var last := |uris| - 1;
      UnsuppliedStays(t, uris[..last], f);
      UpdateUnsupplied(UpdateAll(t, uris[..last]), uris[last], f);
    }
  }

  /** So with the port: it is that of the last URI which names one, or as it was. */
  lemma {:induction false} LastPortWins(t: Texts, uris: seq<ParsedUri>)
    ensures (forall j :: 0 <= j < |uris| ==> uris[j].port == None) ==> UpdateAll(t, uris).port == t.port
    ensures forall k :: 0 <= k < |uris| && uris[k].port.Some? && (forall j :: k < j < |uris| ==> uris[j].port == None)
              ==> uris[k].port == Some(UpdateAll(t, uris).port)
    decreases |uris|
  {
    if uris != [] {
      LastPortWins(t, uris[..|uris| - 1]);
    }
  }

  // ------------------------------------------------------- running out of memory

  /** Which of the copies find memory: one of each field and one of the whole userinfo. */
  datatype Memory = Memory(scheme: bool, host: bool, path: bool, userinfo: bool, password: bool, username: bool)

  predicate HasColon(userinfo: string) {
    FirstColon(userinfo) < |userinfo|
  }

  predicate LocationFits(u: ParsedUri, memory: Memory) {
    && (u.scheme != "" ==> memory.scheme)
    && (u.host != "" ==> memory.host)
    && (u.path != "" ==> memory.path)
  }

  /** Password, if there is one, and user name find memory. */
  predicate PartsFit(userinfo: string, memory: Memory) {
    (HasColon(userinfo) ==> memory.password) && memory.username
  }

  /** Every copy that the URI needs finds memory. */
  predicate Fits(u: ParsedUri, memory: Memory) {
    LocationFits(u, memory) && (u.userinfo != "" ==> memory.userinfo && PartsFit(u.userinfo, memory))
  }

  /** The copy of the userinfo is made, and then a copy of one of its parts fails. */
  predicate Leaks(u: ParsedUri, memory: Memory) {
    LocationFits(u, memory) && u.userinfo != "" && memory.userinfo && !PartsFit(u.userinfo, memory)
  }

  function Copied(text: string, memory: bool): Option<string> {
    if memory then Some(text) else None
  }

  /** Scheme, host and path in this order, up to the first copy that fails. */
  function LocationWith(t: Texts, u: ParsedUri, memory: Memory): Texts {
    var a := if u.scheme == "" then t else t.(scheme := Copied(u.scheme, memory.scheme));
    if u.scheme != "" && !memory.scheme then a
    else
      var b := if u.host == "" then a else a.(host := Copied(u.host, memory.host));
      if (u.host != "" && !memory.host) || u.path == "" then b
      else b.(path := Copied(u.path, memory.path))
  }

  /** Password and then user name, unless a copy fails before. */
  function UserInfoWith(t: Texts, userinfo: string, memory: Memory): Texts {
    var k := FirstColon(userinfo);
    if !memory.userinfo then t
    else
      var a := if k < |userinfo| then t.(password := Copied(userinfo[k + 1..], memory.password)) else t;
      if k < |userinfo| && !memory.password then a else a.(username := Copied(userinfo[..k], memory.username))
  }

  function UpdateWith(t: Texts, u: ParsedUri, memory: Memory): Texts {
    var located := LocationWith(t, u, memory);
    if !LocationFits(u, memory) then located
    else
      var ported := if u.port.Some? then located.(port := u.port.value) else located;
      if u.userinfo == "" then ported else UserInfoWith(ported, u.userinfo, memory)
  }

  /** With memory for every copy it needs, a URI updates what it supplies. */
  lemma FittingUpdates(t: Texts, u: ParsedUri, memory: Memory)
    requires Fits(u, memory)
    ensures UpdateWith(t, u, memory) == Update(t, u)
  {
  }

  /** Without it, each field has the URI's value or its old one or is gone, and at most
      one is gone: the one whose copy failed, which the URI did supply. The port is the
      URI's if scheme, host and path could be stored, and else the old one. */
  lemma ShortOfMemory(t: Texts, u: ParsedUri, memory: Memory)
    requires !Fits(u, memory)
    ensures var after := UpdateWith(t, u, memory);
            && after.port == (if LocationFits(u, memory) && u.port.Some? then u.port.value else t.port)
            && exists lost: Option<Field> ::
              LosesOnly(t, u, after, lost) && (lost == None <==> LocationFits(u, memory) && !memory.userinfo)
  {
    hide FirstColon;
    var k := FirstColon(u.userinfo);
    var lost :=
      if u.scheme != "" && !memory.scheme then Some(Scheme)
      else if u.host != "" && !memory.host then Some(Host)
      else if u.path != "" && !memory.path then Some(Path)
      else if !memory.userinfo then None
      else if k < |u.userinfo| && !memory.password then Some(Password)
      else Some(Username);
    assert LosesOnly(t, u, UpdateWith(t, u, memory), lost);
  }

  ghost predicate LosesOnly(t: Texts, u: ParsedUri, after: Texts, lost: Option<Field>) {
    forall f :: if lost == Some(f) then Get(after, f) == None && Get(Update(t, u), f) != None
                else Get(after, f) == Get(t, f) || Get(after, f) == Get(Update(t, u), f)
  }

  // ------------------------------------------------------------- the strings

  class CString {
    var text: string

    constructor (text: string)
      ensures this.text == text
    {
      this.text := text;
    }
  }

  function TextOf(s: CString?): Option<string>
    reads s
  {
    if s == null then None else Some(s.text)
  }

  function Own(s: CString?): set<CString> {
    if s == null then {} else {s}
  }

  class ClientConfig {
    var present: bool                       // the config record itself
    var scheme: CString?
    var host: CString?
    var path: CString?
    var username: CString?
    var password: CString?
    var uri: CString?
    var port: int
    ghost var live: set<CString>            // strings allocated and not freed

    ghost function Fields(): set<CString>
      reads this
    {
      Own(scheme) + Own(host) + Own(path) + Own(username) + Own(password) + Own(uri)
    }

    ghost predicate Distinct()
      reads this
    {
      && Own(scheme) !! Own(host) !! Own(path) !! Own(username) !! Own(password) !! Own(uri)
    }

    /** The strings alive are those the fields point to, each from one field, and `extra`. */
    ghost predicate Owns(extra: set<CString>)
      reads this
    {
      Distinct() && live == Fields() + extra && Fields() !! extra
    }

    ghost function Now(): Texts
      reads this, Fields()
    {
      Texts(TextOf(scheme), TextOf(host), TextOf(path), TextOf(username), TextOf(password), TextOf(uri), port)
    }

    constructor ()
      ensures Owns({}) && present && Now() == Texts(None, None, None, None, None, None, 0)
    {
      present := true;
      scheme, host, path, username, password, uri := null, null, null, null, null, null;
      port := 0;
      live := {};
    }

    /** Releases a string; freeing a null pointer does nothing. */
    method Free(s: CString?)
      requires s != null ==> s in live
      modifies this`live
      ensures live == old(live) - Own(s)
    {
      live := live - Own(s);
    }

    /** A fresh copy of the text, or null without memory. */
    method Copy(text: string, memory: bool) returns (s: CString?)
      modifies this`live
      ensures s != null <==> memory
      ensures s != null ==> fresh(s) && s.text == text
      ensures live == old(live) + Own(s)
    {
      s := null;
      if memory {
        var c := new CString(text);
        live := live + {c};
        s := c;
      }
    }

    method SetScheme(text: string, memory: bool, ghost extra: set<CString>) returns (ok: bool)
      requires Owns(extra)
      modifies this`scheme, this`live
      ensures Owns(extra) && ok == memory
      ensures Now() == old(Now()).(scheme := Copied(text, memory))
    {
      Free(scheme);
      scheme := Copy(text, memory);
      ok := scheme != null;
    }

    method SetHost(text: string, memory: bool, ghost extra: set<CString>) returns (ok: bool)
      requires Owns(extra)
      modifies this`host, this`live
      ensures Owns(extra) && ok == memory
      ensures Now() == old(Now()).(host := Copied(text, memory))
    {
      Free(host);
      host := Copy(text, memory);
      ok := host != null;
    }

    method SetPath(text: string, memory: bool, ghost extra: set<CString>) returns (ok: bool)
      requires Owns(extra)
      modifies this`path, this`live
      ensures Owns(extra) && ok == memory
      ensures Now() == old(Now()).(path := Copied(text, memory))
    {
      Free(path);
      path := Copy(text, memory);
      ok := path != null;
    }

    method SetUsername(text: string, memory: bool, ghost extra: set<CString>) returns (ok: bool)
      requires Owns(extra)
      modifies this`username, this`live
      ensures Owns(extra) && ok == memory
      ensures Now() == old(Now()).(username := Copied(text, memory))
    {
      Free(username);
      username := Copy(text, memory);
      ok := username != null;
    }

    method SetPassword(text: string, memory: bool, ghost extra: set<CString>) returns (ok: bool)
      requires Owns(extra)
      modifies this`password, this`live
      ensures Owns(extra) && ok == memory
      ensures Now() == old(Now()).(password := Copied(text, memory))
    {
      Free(password);
      password := Copy(text, memory);
      ok := password != null;
    }

    method SetPort(value: int, ghost extra: set<CString>)
      requires Owns(extra)
      modifies this`port
      ensures Owns(extra) && Now() == old(Now()).(port := value)
    {
      port := value;
    }

    /** A temporary copy that no field points to. */
    method CopyAside(text: string, memory: bool, ghost extra: set<CString>) returns (s: CString?)
      requires Owns(extra)
      modifies this`live
      ensures Owns(extra + Own(s)) && Now() == old(Now())
      ensures s != null <==> memory
      ensures s != null ==> fresh(s) && s.text == text && s !in extra
    {
      s := Copy(text, memory);
    }

    method DropAside(s: CString, ghost extra: set<CString>)
      requires Owns(extra + {s}) && s !in extra
      modifies this`live
      ensures Owns(extra) && Now() == old(Now())
    {
      Free(s);
    }

    /** Ends the copy at position `k` and returns what stood after it. */
    method CutInTwo(s: CString, k: nat, ghost extra: set<CString>) returns (rest: string)
      requires Owns(extra) && s in extra && k < |s.text|
      modifies s
      ensures Owns(extra) && Now() == old(Now())
      ensures s.text == old(s.text[..k]) && rest == old(s.text[k + 1..])
    {
      rest := s.text[k + 1..];
      s.text := s.text[..k];
    }

    method StorePassword(s: CString, k: nat, memory: bool, ghost extra: set<CString>) returns (ok: bool)
      requires Owns(extra) && s in extra && k < |s.text|
      modifies s, this`password, this`live
      ensures Owns(extra) && s.text == old(s.text[..k]) && ok == memory
      ensures Now() == old(Now()).(password := Copied(old(s.text[k + 1..]), memory))
    {
      hide Owns, Now;
      var rest := CutInTwo(s, k, extra);
      ok := SetPassword(rest, memory, extra);
    }

    /** Stores the user name and, when there is a ':', the password. A copy of the whole
        userinfo is made first and cut in two in place; it is freed at the end, but not
        on the ways out for want of memory after it was made. */
    method SetUserInfo(userinfo: string, memory: Memory, ghost extra: set<CString>) returns (r: int, ghost leak: set<CString>)
      requires Owns(extra)
      modifies this`username, this`password, this`live
      ensures Owns(extra + leak) && |leak| <= 1
      ensures |leak| == 1 <==> memory.userinfo && !PartsFit(userinfo, memory)
      ensures r == if memory.userinfo && PartsFit(userinfo, memory) then ESP_OK else ESP_ERR_NO_MEM
      ensures Now() == UserInfoWith(old(Now()), userinfo, memory)
    {
      hide Owns, Now, FirstColon;
      assert extra + {} == extra;
      var copy := CopyAside(userinfo, memory.userinfo, extra);
      if copy == null {
        return ESP_ERR_NO_MEM, {};
      }
      leak := {copy};
      var k := FirstColon(userinfo);
      if k < |userinfo| {
        var ok := StorePassword(copy, k, memory.password, extra + leak);
        if !ok {
          return ESP_ERR_NO_MEM, leak;
        }
      }
      assert copy.text == userinfo[..k];
      var ok := SetUsername(copy.text, memory.username, extra + leak);
      if !ok {
        return ESP_ERR_NO_MEM, leak;
      }
      DropAside(copy, extra);
      return ESP_OK, {};
    }

    method SetLocation(u: ParsedUri, memory: Memory, ghost extra: set<CString>) returns (stored: bool)
      requires Owns(extra)
      modifies this`scheme, this`host, this`path, this`live
      ensures Owns(extra) && stored == LocationFits(u, memory)
      ensures Now() == LocationWith(old(Now()), u, memory)
    {
      hide Owns, Now;
      if |u.scheme| != 0 {
        var ok := SetScheme(u.scheme, memory.scheme, extra);
        if !ok { return false; }
      }
      if |u.host| != 0 {
        var ok := SetHost(u.host, memory.host, extra);
        if !ok { return false; }
      }
      if |u.path| != 0 {
        var ok := SetPath(u.path, memory.path, extra);
        if !ok { return false; }
      }
      return true;
    }

    /** Stores what one parsed URI supplies; `None` stands for a URI that does not parse.
        One string leaks precisely when the copy of the userinfo was made and the copy of
        the password or of the user name fails after it. */
    method SetUri(parsed: Option<ParsedUri>, memory: Memory, ghost extra: set<CString>) returns (r: int, ghost leak: set<CString>)
      requires Owns(extra)
      modifies this
      ensures present == old(present) && Owns(extra + leak) && |leak| <= 1
      ensures |leak| == 1 <==> parsed != None && Leaks(parsed.value, memory)
      ensures r == match parsed
                   case None => ESP_FAIL
                   case Some(u) => if Fits(u, memory) then ESP_OK else ESP_ERR_NO_MEM
      ensures Now() == match parsed case None => old(Now()) case Some(u) => UpdateWith(old(Now()), u, memory)
    {
      hide Owns, Now, FirstColon, UserInfoWith, LocationWith, PartsFit;
      assert extra + {} == extra;
      if parsed == None {
        return ESP_FAIL, {};
      }
      var u := parsed.value;
      var stored := SetLocation(u, memory, extra);
      if !stored {
        return ESP_ERR_NO_MEM, {};
      }
      if u.port.Some? {
        SetPort(u.port.value, extra);
      }
      r, leak := ESP_OK, {};
      if |u.userinfo| != 0 {
        r, leak := SetUserInfo(u.userinfo, memory, extra);
      }
    }

    /** Frees every string once and then the record. */
    method DestroyConfig(ghost extra: set<CString>) returns (r: int)
      requires present ==> Owns(extra)
      modifies this
      ensures r == if old(present) then ESP_OK else ESP_ERR_INVALID_ARG
      ensures !present && live == if old(present) then extra else old(live)
    {
      if !present {
        return ESP_ERR_INVALID_ARG;
      }
      Free(host);
      Free(uri);
      Free(path);
      Free(scheme);
      Free(username);
      Free(password);
      scheme, host, path, username, password, uri := null, null, null, null, null, null;
      port := 0;
      present := false;
      return ESP_OK;
    }
  }
  /** The userinfo "u:p" when only the copy of the user name fails: one string stays
      allocated after the configuration is destroyed. */
  method LeakUserInfo() returns (config: ClientConfig, r: int, ghost leak: set<CString>)
    ensures fresh(config) && r == ESP_ERR_NO_MEM
    ensures |leak| == 1 && !config.present && config.live == leak
  {
    config := new ClientConfig();
    var memory := Memory(true, true, true, true, true, false);
    r, leak := config.SetUri(Some(ParsedUri("", "", "", None, "u:p")), memory, {});
    FirstColonAt("u:p", 1);
    hide FirstColon;
    assert {} + leak == leak;
    var destroyed := config.DestroyConfig(leak);
  }
}
