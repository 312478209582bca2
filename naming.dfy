/** `CRUDRepository._to_camel_case` and `_to_lower_camel_case`: the spelling of
    the configured identifier field. Case mapping is ASCII only. */
module Naming {
  import opened Base

  /** `str.lower` on one character. */
  function Lower(c: char): char {
    if 'A' <= c <= 'Z' then (c as int - 'A' as int + 'a' as int) as char else c
  }

  /** `str.upper` on one character. */
  function Upper(c: char): char {
    if 'a' <= c <= 'z' then (c as int - 'a' as int + 'A' as int) as char else c
  }

  function LowerStr(s: string): (t: string)
    ensures |t| == |s|
    ensures forall i | 0 <= i < |s| :: t[i] == Lower(s[i])
  {
    if s == [] then [] else [Lower(s[0])] + LowerStr(s[1..])
  }

  /** `str.capitalize`: the first character upper-cased, the rest lower-cased. */
  function Capitalize(s: string): string {
    if s == [] then [] else [Upper(s[0])] + LowerStr(s[1..])
  }

  /** `s.split("_")`: the maximal underscore-free pieces between underscores. */
  function Split(s: string): (parts: seq<string>)
    ensures |parts| >= 1
  {
    if s == [] then [""]
    else
      var rest := Split(s[1..]);
      if s[0] == '_' then [""] + rest else [[s[0]] + rest[0]] + rest[1..]
  }

  /** `"".join(x.capitalize() for x in parts)`. */
  function JoinCapitalized(parts: seq<string>): string {
    if parts == [] then [] else Capitalize(parts[0]) + JoinCapitalized(parts[1..])
  }

  /** `_to_camel_case`. */
  function ToCamelCase(s: string): string {
    JoinCapitalized(Split(LowerStr(s)))
  }

  /** Python's `t[1:]`, which is empty for an empty `t`. */
  function DropFirst(t: string): string {
    if t == [] then [] else t[1..]
  }

  /** `_to_lower_camel_case`: names that start with an underscore (Mongo keys
      such as `_id`) are kept; otherwise the first character is lower-cased and
      the camel-cased rest follows. `snake_str[0]` raises on the empty string. */
  function ToLowerCamelCase(s: string): (r: Result<string>)
    ensures r.Raise? <==> s == ""
    ensures r.Raise? ==> r.exc == IndexError
  {
    if |s| > 0 && s[0] == '_' then Ok(s)
    else if s == [] then Raise(IndexError)
    else Ok([Lower(s[0])] + DropFirst(ToCamelCase(s)))
  }

  function Count(s: string, c: char): (n: nat)
    ensures n <= |s|
  {
    if s == [] then 0 else (if s[0] == c then 1 else 0) + Count(s[1..], c)
  }

  /** Reference definition of camel casing as one left-to-right scan: an
      underscore is dropped and makes the next kept character upper case; every
      other character is lower-cased. `capNext` says whether the first kept
      character is upper-cased. */
  function Scan(s: string, capNext: bool): (r: string)
    ensures '_' !in r
    ensures |r| == |s| - Count(s, '_')
  {
    if s == [] then []
    else if s[0] == '_' then Scan(s[1..], true)
    else [if capNext then Upper(s[0]) else Lower(s[0])] + Scan(s[1..], false)
  }

  lemma {:induction false} SplitScan(t: string, cap: bool)
    ensures var parts := Split(t);
            Scan(t, cap) == (if cap then Capitalize(parts[0]) else LowerStr(parts[0]))
                            + JoinCapitalized(parts[1..])
  {
    if t != [] {
      var rest := Split(t[1..]);
      SplitScan(t[1..], t[0] == '_');
      if t[0] == '_' {
        assert Split(t)[1..] == rest;
      } else {
        var p := [t[0]] + rest[0];
        assert p[1..] == rest[0];
        assert Split(t)[0] == p && Split(t)[1..] == rest[1..];
      }
    }
  }

  lemma {:induction false} ScanLower(s: string, cap: bool)
    ensures Scan(LowerStr(s), cap) == Scan(s, cap)
  {
    if s != [] {
      var t := LowerStr(s);
      assert t[1..] == LowerStr(s[1..]);
      ScanLower(s[1..], s[0] == '_' || (cap && s[0] == '_'));
      ScanLower(s[1..], true);
      ScanLower(s[1..], false);
    }
  }

  /** `_to_camel_case` agrees with the scan that capitalises the first piece. */
  lemma CamelCaseIsScan(s: string)
    ensures ToCamelCase(s) == Scan(s, true)
  {
    SplitScan(LowerStr(s), true);
    ScanLower(s, true);
  }

  /** For a non-empty name that does not start with an underscore,
      `_to_lower_camel_case` is the scan that starts in lower case. */
  lemma LowerCamelCaseIsScan(s: string)
    requires s != "" && s[0] != '_'
    ensures ToLowerCamelCase(s) == Ok(Scan(s, false))
  {
    CamelCaseIsScan(s);
    assert Scan(s, true) == [Upper(s[0])] + Scan(s[1..], false);
    assert Scan(s, false) == [Lower(s[0])] + Scan(s[1..], false);
  }

  /** A name starting with an underscore is returned unchanged, so the default
      identifier `_id` stays `_id`. */
  lemma UnderscoreNameKept(s: string)
    requires |s| > 0 && s[0] == '_'
    ensures ToLowerCamelCase(s) == Ok(s)
    ensures ToLowerCamelCase("_id") == Ok("_id")
  {
  }

  /** Otherwise the result holds no underscore, is shorter than the input by
      the number of underscores, and starts with the lower-cased first
      character. */
  lemma LowerCamelCaseShape(s: string)
    requires s != "" && s[0] != '_'
    ensures ToLowerCamelCase(s).Ok?
    ensures var r := ToLowerCamelCase(s).value;
            && '_' !in r
            && |r| == |s| - Count(s, '_')
            && r[0] == Lower(s[0])
  {
    LowerCamelCaseIsScan(s);
  }

  /** Scan of the piece "name" in lower and in title case. */
  lemma ScanName()
    ensures Scan("name", false) == "name"
    ensures Scan("name", true) == "Name"
  {
    assert "name"[1..] == "ame";
    assert "ame"[1..] == "me";
    assert "me"[1..] == "e";
    assert "e"[1..] == "";
  }

  lemma ScanRName()
    ensures Scan("r_name", false) == "rName"
  {
    ScanName();
    assert "_name"[1..] == "name";
    assert Scan("_name", false) == "Name";
    assert "r_name"[1..] == "_name";
  }

  lemma ScanSnake()
    ensures Scan("user_name", false) == "userName"
  {
    ScanRName();
    assert "er_name"[1..] == "r_name";
    assert Scan("er_name", false) == "erName";
    assert "ser_name"[1..] == "er_name";
    assert Scan("ser_name", false) == "serName";
    assert "user_name"[1..] == "ser_name";
  }

  lemma ScanRCamel()
    ensures Scan("rName", false) == "rname"
  {
    ScanName();
    assert "Name"[1..] == "ame";
    assert Scan("Name", false) == "name";
    assert "rName"[1..] == "Name";
  }

  lemma ScanCamel()
    ensures Scan("userName", false) == "username"
  {
    ScanRCamel();
    assert "erName"[1..] == "rName";
    assert Scan("erName", false) == "ername";
    assert "serName"[1..] == "erName";
    assert Scan("serName", false) == "sername";
    assert "userName"[1..] == "serName";
  }

  /** "user_name" becomes "userName"; applying the conversion again, to
      "userName", gives "username": the conversion is not idempotent. */
  lemma NotIdempotent()
    ensures ToLowerCamelCase("user_name") == Ok("userName")
    ensures ToLowerCamelCase("userName") == Ok("username")
  {
    ScanSnake();
    ScanCamel();
    LowerCamelCaseIsScan("user_name");
    LowerCamelCaseIsScan("userName");
  }
}
