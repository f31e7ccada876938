/** The loops that read and write chunks, proved against the functions that say what is on the wire. */
module WireLoops {
  import opened Basics
  import opened Chunks
  import opened BigEndian
  import opened Wire

  // ----- reading -----

  method ReadSupported(value: Bytes) returns (support: SupportedAddrTypes)
    ensures support == GetSupported(value, SupportedAddrTypes(false, false))
  {
    support := SupportedAddrTypes(false, false);
    var rest := value;
    while |rest| >= 2
      invariant GetSupported(rest, support) == GetSupported(value, SupportedAddrTypes(false, false))
    {
      var typ := Read16(rest);
      rest := rest[2..];
      if typ == PARAM_IPV4_ADDR {
        support := support.(ipv4 := true);
      } else if typ == PARAM_IPV6_ADDR {
        support := support.(ipv6 := true);
      }
    }
  }

  /** The parameter loop of INIT and INIT ACK; it ends on every input because each turn consumes a byte. */
  method ReadParams(data: Bytes, isAck: bool) returns (result: Option<Parts>)
    ensures result == ParseParams(NO_PARTS, data, isAck)
  {
    var parts, rest := NO_PARTS, data;
    while rest != []
      invariant ParseParams(parts, rest, isAck) == ParseParams(NO_PARTS, data, isAck)
      decreases |rest|
    {
      var (size, param) := ParseParam(rest);
      match param {
        case Ok(p) =>
          parts := Collect(parts, p, isAck);
        case Err(ParamsDone) =>
          return Some(parts);
        case Err(IllegalParam) =>
          return None;
        case Err(e) =>
          parts := Report(parts, e, isAck);
          if e.stop {
            return Some(parts);
          }
      }
      rest := rest[size..];
    }
    return Some(parts);
  }

  method ReadBlocks(data: Bytes, n: nat) returns (blocks: seq<(u16, u16)>, rest: Bytes)
    requires 4 * n <= |data|
    ensures blocks == GetBlocks(data, n) && rest == data[4 * n..]
  {
    blocks, rest := [], data;
    for i := 0 to n
      invariant rest == data[4 * i..] && blocks + GetBlocks(rest, n - i) == GetBlocks(data, n)
    {
      blocks := blocks + [(Read16(rest), Read16(rest[2..]))];
      rest := rest[4..];
    }
  }

  method ReadTsns(data: Bytes, n: nat) returns (tsns: seq<u32>)
    requires 4 * n <= |data|
    ensures tsns == GetTsns(data, n)
  {
    tsns := [];
    var rest := data;
    for i := 0 to n
      invariant |rest| == |data| - 4 * i && tsns + GetTsns(rest, n - i) == GetTsns(data, n)
    {
      tsns := tsns + [Read32(rest)];
      rest := rest[4..];
    }
  }

  method ReadSack(data: Bytes) returns (result: Option<SelectiveAck>)
    ensures result == ParseSack(data)
  {
    if |data| < 12 {
      return None;
    }
    var nBlocks: nat, nDups: nat := Read16(data[8..]), Read16(data[10..]);
    if |data| - 12 < 4 * (nBlocks + nDups) {
      return None;
    }
    var blocks, rest := ReadBlocks(data[12..], nBlocks);
    var duplicated := ReadTsns(rest, nDups);
    return Some(SelectiveAck(Read32(data), Read32(data[4..]), blocks, duplicated));
  }

  method ReadAliases(data: Bytes) returns (result: Option<seq<TransportAddress>>)
    ensures result == GetAliases([], data)
  {
    var aliases, rest := [], data;
    while |rest| >= 5
      invariant GetAliases(aliases, rest) == GetAliases([], data)
    {
      if rest[0] == 1 {
        aliases := aliases + [IpV4(Read32(rest[1..]))];
        rest := rest[5..];
      } else if rest[0] == 2 {
        if |rest| < 17 {
          return None;
        }
        aliases := aliases + [IpV6(Read128(rest[1..]))];
        rest := rest[17..];
      } else {
        return None;
      }
    }
    return Some(aliases);
  }

  lemma {:induction false} ScanStep(seen: seq<Result<Chunk, ChunkError>>, data: Bytes, size: nat,
                                    chunk: Result<Chunk, ChunkError>)
    requires data != [] && ParseChunk(data) == (size, chunk)
    ensures seen + Scan(data) == seen + [chunk] + (if GoesOn(chunk) then Scan(data[size..]) else [])
  {}

  /** The parse-and-advance loop over a packet body; it ends on every input. */
  method ReadBody(data: Bytes) returns (seen: seq<Result<Chunk, ChunkError>>)
    ensures seen == Scan(data)
  {
    seen := [];
    var rest, goesOn := data, true;
    while rest != [] && goesOn
      invariant seen + (if goesOn then Scan(rest) else []) == Scan(data)
      decreases |rest|
    {
      var (size, chunk) := ParseChunk(rest);
      ScanStep(seen, rest, size, chunk);
      seen := seen + [chunk];
      rest := rest[size..];
      goesOn := GoesOn(chunk);
    }
  }

  // ----- measuring and writing -----

  method MeasureCookie(c: Cookie) returns (size: nat)
    ensures size == CookieSize(c)
  {
    size := 36;
    match c.initAddress {
      case Fake(_) => size := size + 1 + 8;
      case IpV4(_) => size := size + 1 + 4;
      case IpV6(_) => size := size + 1 + 16;
    }
    for i := 0 to |c.aliases|
      invariant size + AliasesSize(c.aliases[i..]) == CookieSize(c)
    {
      size := size + AliasSize(c.aliases[i]);
    }
  }

  method WriteAliases(aliases: seq<TransportAddress>) returns (buf: Bytes)
    ensures buf == PutAliases(aliases)
  {
    buf := [];
    for i := 0 to |aliases|
      invariant buf + PutAliases(aliases[i..]) == PutAliases(aliases)
    {
      AliasStep(buf, aliases, i);
      if !aliases[i].Fake? {
        buf := buf + PutAddress(aliases[i]);
      }
    }
  }

  lemma {:induction false} AliasStep(buf: Bytes, aliases: seq<TransportAddress>, i: nat)
    requires i < |aliases|
    ensures buf + PutAliases(aliases[i..])
         == (if aliases[i].Fake? then buf else buf + PutAddress(aliases[i])) + PutAliases(aliases[i + 1..])
  {}

  method WriteCookie(c: Cookie) returns (buf: Bytes)
    ensures buf == PutCookie(c)
  {
    var aliases := WriteAliases(c.aliases);
    buf := PutNumbers(CookieNumbers(c), COOKIE_WIDTHS) + (PutAddress(c.initAddress) + aliases);
  }

  method MeasureInitAck(i: InitAck) returns (size: nat)
    ensures size == InitAckSize(i)
  {
    size := 4 + 16 + 4 + PaddedLen(StateCookieSize(i.cookie));
    for k := 0 to |i.aliases|
      invariant size + AliasParamsSize(i.aliases[k..])
             == 24 + PaddedLen(StateCookieSize(i.cookie)) + AliasParamsSize(i.aliases)
    {
      size := size + AliasParamSize(i.aliases[k]);
    }
    if i.cookiePreservative.Some? {
      size := size + PaddedLen(ParamSize(CookiePreservative(i.cookiePreservative.value)));
    }
    if i.supportedAddrTypes.Some? {
      size := size + PaddedLen(ParamSize(SupportedTypes(i.supportedAddrTypes.value)));
    }
    for k := 0 to |i.unrecognized|
      invariant size + UnrecognizedSize(i.unrecognized[k..]) == InitAckSize(i)
    {
      size := size + PaddedLen(PARAM_HEADER_SIZE + PARAM_HEADER_SIZE + |i.unrecognized[k].data|);
    }
  }

  lemma {:induction false} HeaderFirst(s: SelectiveAck, blocks: Bytes, tsns: Bytes)
    ensures Put(s.cumTsn, 4) + (Put(s.aRwnd, 4) + (Put(|s.blocks|, 2) + Put(|s.duplicated|, 2))) + blocks + tsns
         == Put(s.cumTsn, 4) + (Put(s.aRwnd, 4) + (Put(|s.blocks|, 2) + (Put(|s.duplicated|, 2) + (blocks + tsns))))
  {}

  method WriteSack(s: SelectiveAck) returns (buf: Bytes)
    ensures buf == SackValue(s)
  {
    buf := Put(s.cumTsn, 4) + (Put(s.aRwnd, 4) + (Put(|s.blocks|, 2) + Put(|s.duplicated|, 2)));
    ghost var header := buf;
    for i := 0 to |s.blocks|
      invariant buf + PutBlocks(s.blocks[i..]) == header + PutBlocks(s.blocks)
    {
      buf := buf + Put(s.blocks[i].0, 2) + Put(s.blocks[i].1, 2);
    }
    assert buf == header + PutBlocks(s.blocks);
    for i := 0 to |s.duplicated|
      invariant buf + PutTsns(s.duplicated[i..]) == header + PutBlocks(s.blocks) + PutTsns(s.duplicated)
    {
      buf := buf + Put(s.duplicated[i], 4);
    }
    assert buf == header + PutBlocks(s.blocks) + PutTsns(s.duplicated);
    HeaderFirst(s, PutBlocks(s.blocks), PutTsns(s.duplicated));
  }
}
