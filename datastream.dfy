/**
  Qt's QDataStream, reduced to the values the project files hold. A stream is a
  sequence of typed tokens; each `<<` appends one token and each `>>` reads the
  token at the read position and moves past it. Reading past the end, or a
  token of another kind, yields the value Qt yields past the end: zero, false,
  the empty string, a colour whose fields are all zero or the null vector.
*/
module DataStream {
  import opened Colors
  import opened Geometry

  datatype Token =
    | IntTok(i: int)
    | RealTok(r: real)
    | BoolTok(b: bool)
    | StrTok(s: string)
    | ColorTok(c: Color)
    | VecTok(v: Vec3)

  function ReadInt(s: seq<Token>, pos: nat): (r: (int, nat))
    ensures r.1 == pos + 1
    ensures pos < |s| && s[pos].IntTok? ==> r.0 == s[pos].i
    ensures !(pos < |s| && s[pos].IntTok?) ==> r.0 == 0
  {
    if pos < |s| && s[pos].IntTok? then (s[pos].i, pos + 1) else (0, pos + 1)
  }

  function ReadReal(s: seq<Token>, pos: nat): (r: (real, nat))
    ensures r.1 == pos + 1
    ensures pos < |s| && s[pos].RealTok? ==> r.0 == s[pos].r
    ensures !(pos < |s| && s[pos].RealTok?) ==> r.0 == 0.0
  {
    if pos < |s| && s[pos].RealTok? then (s[pos].r, pos + 1) else (0.0, pos + 1)
  }

  function ReadBool(s: seq<Token>, pos: nat): (r: (bool, nat))
    ensures r.1 == pos + 1
    ensures r.0 <==> pos < |s| && s[pos].BoolTok? && s[pos].b
  {
    if pos < |s| && s[pos].BoolTok? then (s[pos].b, pos + 1) else (false, pos + 1)
  }

  function ReadStr(s: seq<Token>, pos: nat): (r: (string, nat))
    ensures r.1 == pos + 1
    ensures pos < |s| && s[pos].StrTok? ==> r.0 == s[pos].s
    ensures !(pos < |s| && s[pos].StrTok?) ==> r.0 == ""
  {
    if pos < |s| && s[pos].StrTok? then (s[pos].s, pos + 1) else ("", pos + 1)
  }

  function ReadColor(s: seq<Token>, pos: nat): (r: (Color, nat))
    ensures r.1 == pos + 1
    ensures pos < |s| && s[pos].ColorTok? ==> r.0 == s[pos].c
    ensures !(pos < |s| && s[pos].ColorTok?) ==> r.0 == ZeroColor
  {
    if pos < |s| && s[pos].ColorTok? then (s[pos].c, pos + 1) else (ZeroColor, pos + 1)
  }

  function ReadVec(s: seq<Token>, pos: nat): (r: (Vec3, nat))
    ensures r.1 == pos + 1
    ensures pos < |s| && s[pos].VecTok? ==> r.0 == s[pos].v
    ensures !(pos < |s| && s[pos].VecTok?) ==> r.0 == Origin
  {
    if pos < |s| && s[pos].VecTok? then (s[pos].v, pos + 1) else (Origin, pos + 1)
  }

  /** What a file on disk holds when it is asked for by path. */
  datatype FileEntry<T> = Missing | Unreadable | Readable(contents: T)
}
