/** The application-layer proxy header: [version][src id][dst id][content]. */
module ProxyProtocol {
  import opened Base

  const PROXY_VERSION: Byte := 1
  const PROXY_HEADER_SIZE: nat := 1 + 2 * PROXY_ID_SIZE
  const PROXY_CONTENT_MAX: nat := 200 - PROXY_HEADER_SIZE

  datatype Header = Header(src: Bytes, dst: Bytes, content: Bytes)

  function ParseHeader(payload: Bytes): Option<Header> {
    if |payload| < PROXY_HEADER_SIZE || payload[0] != PROXY_VERSION then None
    else Some(Header(payload[1..5], payload[5..9], payload[9..]))
  }

  /** None stands for the returned length 0. */
  function BuildHeader(src: Bytes, dst: Bytes, content: Bytes, bufSize: nat): Option<Bytes>
    requires |src| == |dst| == PROXY_ID_SIZE
  {
    if |content| > PROXY_CONTENT_MAX || PROXY_HEADER_SIZE + |content| > bufSize then None
    else Some([PROXY_VERSION] + src + dst + content)
  }

  /** The layout on the wire: one version byte, two ids of four bytes, and up to 191 bytes of content. */
  lemma HeaderLayout(src: Bytes, dst: Bytes, content: Bytes, bufSize: nat)
    requires |src| == |dst| == 4
    ensures var b := BuildHeader(src, dst, content, bufSize);
            && (b.Some? <==> |content| <= 191 && 9 + |content| <= bufSize)
            && (b.Some? ==> |b.value| == 9 + |content| && b.value[0] == 1 && b.value[1..5] == src
                            && b.value[5..9] == dst && b.value[9..] == content)
  {
  }

  /** What is built parses back to the same ids and content ... */
  lemma BuildThenParse(src: Bytes, dst: Bytes, content: Bytes, bufSize: nat)
    requires |src| == |dst| == 4
    ensures var b := BuildHeader(src, dst, content, bufSize);
            b.Some? ==> |b.value| <= bufSize && ParseHeader(b.value) == Some(Header(src, dst, content))
  {
    HeaderLayout(src, dst, content, bufSize);
  }

  /**
   ... and what parses is rebuilt byte for byte, exactly when its content is within the limit.  Nothing
   else parses than nine bytes or more that begin with the version.
   */
  lemma ParseThenBuild(payload: Bytes)
    ensures ParseHeader(payload).Some? <==> |payload| >= 9 && payload[0] == 1
    ensures var h := ParseHeader(payload);
            h.Some? ==> (BuildHeader(h.value.src, h.value.dst, h.value.content, |payload|) == Some(payload)
                         <==> |payload| <= 200)
  {
    if ParseHeader(payload).Some? {
      assert [PROXY_VERSION] + payload[1..5] + payload[5..9] + payload[9..] == payload;
    }
  }
}
