/**
 * The integer-to-enum conversion tables of the FFmpeg bindings (src/ffmpeg.rs):
 * error codes, media types and pixel formats.
 *
 * The errno numbers below are Linux's (asm-generic/errno-base.h and
 * asm-generic/errno.h), where EWOULDBLOCK is EAGAIN, EDEADLOCK is EDEADLK and
 * ENOTSUP is EOPNOTSUPP. The AVERROR tags are built as libavutil/error.h
 * builds them: FFERRTAG(a, b, c, d) = -MKTAG(a, b, c, d).
 */
module FFmpeg {
  import opened Common

  /** `AVError`: libav's tagged errors, an unknown code, and the errno errors. */
  datatype AVError =
      BsfNotFound
    | Bug
    | BufferTooSmall
    | DecoderNotFound
    | DemuxerNotFound
    | EncoderNotFound
    | Eof
    | Exit
    | External
    | FilterNotFound
    | Invaliddata
    | MuxerNotFound
    | OptionNotFound
    | Patchwelcome
    | ProtocolNotFound
    | StreamNotFound
    | Bug2
    | Unknown(code: int)
    | HttpBadRequest
    | HttpUnauthorized
    | HttpForbidden
    | HttpNotFound
    | HttpOther4xx
    | HttpServerError
    | EPERM
    | ENOENT
    | ESRCH
    | EINTR
    | EIO
    | ENXIO
    | E2BIG
    | ENOEXEC
    | EBADF
    | ECHILD
    | EAGAIN
    | ENOMEM
    | EACCES
    | EFAULT
    | ENOTBLK
    | EBUSY
    | EEXIST
    | EXDEV
    | ENODEV
    | ENOTDIR
    | EISDIR
    | EINVAL
    | ENFILE
    | EMFILE
    | ENOTTY
    | ETXTBSY
    | EFBIG
    | ENOSPC
    | ESPIPE
    | EROFS
    | EMLINK
    | EPIPE
    | EDOM
    | ERANGE
    | EDEADLK
    | ENAMETOOLONG
    | ENOLCK
    | ENOSYS
    | ENOTEMPTY
    | ELOOP
    | EWOULDBLOCK
    | ENOMSG
    | EIDRM
    | ECHRNG
    | EL2NSYNC
    | EL3HLT
    | EL3RST
    | ELNRNG
    | EUNATCH
    | ENOCSI
    | EL2HLT
    | EBADE
    | EBADR
    | EXFULL
    | ENOANO
    | EBADRQC
    | EBADSLT
    | EDEADLOCK
    | EBFONT
    | ENOSTR
    | ENODATA
    | ETIME
    | ENOSR
    | ENONET
    | ENOPKG
    | EREMOTE
    | ENOLINK
    | EADV
    | ESRMNT
    | ECOMM
    | EPROTO
    | EMULTIHOP
    | EDOTDOT
    | EBADMSG
    | EOVERFLOW
    | ENOTUNIQ
    | EBADFD
    | EREMCHG
    | ELIBACC
    | ELIBBAD
    | ELIBSCN
    | ELIBMAX
    | ELIBEXEC
    | EILSEQ
    | ERESTART
    | ESTRPIPE
    | EUSERS
    | ENOTSOCK
    | EDESTADDRREQ
    | EMSGSIZE
    | EPROTOTYPE
    | ENOPROTOOPT
    | EPROTONOSUPPORT
    | ESOCKTNOSUPPORT
    | EOPNOTSUPP
    | EPFNOSUPPORT
    | EAFNOSUPPORT
    | EADDRINUSE
    | EADDRNOTAVAIL
    | ENETDOWN
    | ENETUNREACH
    | ENETRESET
    | ECONNABORTED
    | ECONNRESET
    | ENOBUFS
    | EISCONN
    | ENOTCONN
    | ESHUTDOWN
    | ETOOMANYREFS
    | ETIMEDOUT
    | ECONNREFUSED
    | EHOSTDOWN
    | EHOSTUNREACH
    | EALREADY
    | EINPROGRESS
    | ESTALE
    | EUCLEAN
    | ENOTNAM
    | ENAVAIL
    | EISNAM
    | EREMOTEIO
    | EDQUOT
    | ENOMEDIUM
    | EMEDIUMTYPE
    | ECANCELED
    | ENOKEY
    | EKEYEXPIRED
    | EKEYREVOKED
    | EKEYREJECTED
    | EOWNERDEAD
    | ENOTRECOVERABLE
    | ERFKILL
    | EHWPOISON
    | ENOTSUP

  /** libavutil's `MKTAG`/`FFERRTAG`: minus the four bytes read as a little-endian word. */
  function ErrTag(a: nat, b: nat, c: nat, d: nat): (code: int)
    requires a < 256 && b < 256 && c < 256 && 32 <= d < 128
    ensures I32_MIN < code <= -0x2000_0000
  {
    -(a + 256 * b + 65536 * c + 16777216 * d)
  }

  const AVERROR_BSF_NOT_FOUND: int := ErrTag(0xF8, 'B' as nat, 'S' as nat, 'F' as nat)
  const AVERROR_BUG: int := ErrTag('B' as nat, 'U' as nat, 'G' as nat, '!' as nat)
  const AVERROR_BUFFER_TOO_SMALL: int := ErrTag('B' as nat, 'U' as nat, 'F' as nat, 'S' as nat)
  const AVERROR_DECODER_NOT_FOUND: int := ErrTag(0xF8, 'D' as nat, 'E' as nat, 'C' as nat)
  const AVERROR_DEMUXER_NOT_FOUND: int := ErrTag(0xF8, 'D' as nat, 'E' as nat, 'M' as nat)
  const AVERROR_ENCODER_NOT_FOUND: int := ErrTag(0xF8, 'E' as nat, 'N' as nat, 'C' as nat)
  const AVERROR_EOF: int := ErrTag('E' as nat, 'O' as nat, 'F' as nat, ' ' as nat)
  const AVERROR_EXIT: int := ErrTag('E' as nat, 'X' as nat, 'I' as nat, 'T' as nat)
  const AVERROR_EXTERNAL: int := ErrTag('E' as nat, 'X' as nat, 'T' as nat, ' ' as nat)
  const AVERROR_FILTER_NOT_FOUND: int := ErrTag(0xF8, 'F' as nat, 'I' as nat, 'L' as nat)
  const AVERROR_INVALIDDATA: int := ErrTag('I' as nat, 'N' as nat, 'D' as nat, 'A' as nat)
  const AVERROR_MUXER_NOT_FOUND: int := ErrTag(0xF8, 'M' as nat, 'U' as nat, 'X' as nat)
  const AVERROR_OPTION_NOT_FOUND: int := ErrTag(0xF8, 'O' as nat, 'P' as nat, 'T' as nat)
  const AVERROR_PATCHWELCOME: int := ErrTag('P' as nat, 'A' as nat, 'W' as nat, 'E' as nat)
  const AVERROR_PROTOCOL_NOT_FOUND: int := ErrTag(0xF8, 'P' as nat, 'R' as nat, 'O' as nat)
  const AVERROR_STREAM_NOT_FOUND: int := ErrTag(0xF8, 'S' as nat, 'T' as nat, 'R' as nat)
  const AVERROR_BUG2: int := ErrTag('B' as nat, 'U' as nat, 'G' as nat, ' ' as nat)
  const AVERROR_UNKNOWN: int := ErrTag('U' as nat, 'N' as nat, 'K' as nat, 'N' as nat)
  const AVERROR_HTTP_BAD_REQUEST: int := ErrTag(0xF8, '4' as nat, '0' as nat, '0' as nat)
  const AVERROR_HTTP_UNAUTHORIZED: int := ErrTag(0xF8, '4' as nat, '0' as nat, '1' as nat)
  const AVERROR_HTTP_FORBIDDEN: int := ErrTag(0xF8, '4' as nat, '0' as nat, '3' as nat)
  const AVERROR_HTTP_NOT_FOUND: int := ErrTag(0xF8, '4' as nat, '0' as nat, '4' as nat)
  const AVERROR_HTTP_OTHER_4XX: int := ErrTag(0xF8, '4' as nat, 'X' as nat, 'X' as nat)
  const AVERROR_HTTP_SERVER_ERROR: int := ErrTag(0xF8, '5' as nat, 'X' as nat, 'X' as nat)

  /** The AVERROR tags `From<c_int>` matches on. */
  predicate IsTag(x: int)
  {
    x == AVERROR_BSF_NOT_FOUND ||
    x == AVERROR_BUG ||
    x == AVERROR_BUFFER_TOO_SMALL ||
    x == AVERROR_DECODER_NOT_FOUND ||
    x == AVERROR_DEMUXER_NOT_FOUND ||
    x == AVERROR_ENCODER_NOT_FOUND ||
    x == AVERROR_EOF ||
    x == AVERROR_EXIT ||
    x == AVERROR_EXTERNAL ||
    x == AVERROR_FILTER_NOT_FOUND ||
    x == AVERROR_INVALIDDATA ||
    x == AVERROR_MUXER_NOT_FOUND ||
    x == AVERROR_OPTION_NOT_FOUND ||
    x == AVERROR_PATCHWELCOME ||
    x == AVERROR_PROTOCOL_NOT_FOUND ||
    x == AVERROR_STREAM_NOT_FOUND ||
    x == AVERROR_BUG2 ||
    x == AVERROR_UNKNOWN ||
    x == AVERROR_HTTP_BAD_REQUEST ||
    x == AVERROR_HTTP_UNAUTHORIZED ||
    x == AVERROR_HTTP_FORBIDDEN ||
    x == AVERROR_HTTP_NOT_FOUND ||
    x == AVERROR_HTTP_OTHER_4XX ||
    x == AVERROR_HTTP_SERVER_ERROR
  }

  /** Every AVERROR tag is at most -2^29, so no small negative code is a tag. */
  lemma TagsAreLarge(x: int)
    requires IsTag(x)
    ensures x <= -0x2000_0000
  {
  }

  /** `value as i32` for a `u32`: the same 32 bits read as two's complement. */
  function AsI32(u: nat): (x: int)
    requires u < TWO_POW_32
    ensures I32_MIN <= x <= I32_MAX && x % TWO_POW_32 == u
  {
    if u <= I32_MAX then u else u - TWO_POW_32
  }

  /** `x as c_uint` for an `i32`: the same 32 bits read as unsigned. */
  function AsU32(x: int): (u: nat)
    requires I32_MIN <= x <= I32_MAX
    ensures u < TWO_POW_32 && AsI32(u) == x
  {
    if x >= 0 then x else x + TWO_POW_32
  }

  /** The errno numbers that have an arm in `From<c_uint>`: 1 to 133 except the unassigned 41 and 58. */
  predicate KnownErrno(u: nat)
  {
    1 <= u <= 133 && u != 41 && u != 58
  }

  /**
   * `From<c_uint>`: one arm per errno name, tried in source order, so of two
   * names for one number the first wins; any other value becomes `Unknown`
   * of the same bits as an `i32`.
   */
  function FromCUint(u: nat): (e: AVError)
    requires u < TWO_POW_32
    ensures e.Unknown? <==> !KnownErrno(u)
  {
    if u == 1 then EPERM
    else if u == 2 then ENOENT
    else if u == 3 then ESRCH
    else if u == 4 then EINTR
    else if u == 5 then EIO
    else if u == 6 then ENXIO
    else if u == 7 then E2BIG
    else if u == 8 then ENOEXEC
    else if u == 9 then EBADF
    else if u == 10 then ECHILD
    else if u == 11 then EAGAIN
    else if u == 12 then ENOMEM
    else if u == 13 then EACCES
    else if u == 14 then EFAULT
    else if u == 15 then ENOTBLK
    else if u == 16 then EBUSY
    else if u == 17 then EEXIST
    else if u == 18 then EXDEV
    else if u == 19 then ENODEV
    else if u == 20 then ENOTDIR
    else if u == 21 then EISDIR
    else if u == 22 then EINVAL
    else if u == 23 then ENFILE
    else if u == 24 then EMFILE
    else if u == 25 then ENOTTY
    else if u == 26 then ETXTBSY
    else if u == 27 then EFBIG
    else if u == 28 then ENOSPC
    else if u == 29 then ESPIPE
    else if u == 30 then EROFS
    else if u == 31 then EMLINK
    else if u == 32 then EPIPE
    else if u == 33 then EDOM
    else if u == 34 then ERANGE
    else if u == 35 then EDEADLK
    else if u == 36 then ENAMETOOLONG
    else if u == 37 then ENOLCK
    else if u == 38 then ENOSYS
    else if u == 39 then ENOTEMPTY
    else if u == 40 then ELOOP
    else if u == 11 then EWOULDBLOCK
    else if u == 42 then ENOMSG
    else if u == 43 then EIDRM
    else if u == 44 then ECHRNG
    else if u == 45 then EL2NSYNC
    else if u == 46 then EL3HLT
    else if u == 47 then EL3RST
    else if u == 48 then ELNRNG
    else if u == 49 then EUNATCH
    else if u == 50 then ENOCSI
    else if u == 51 then EL2HLT
    else if u == 52 then EBADE
    else if u == 53 then EBADR
    else if u == 54 then EXFULL
    else if u == 55 then ENOANO
    else if u == 56 then EBADRQC
    else if u == 57 then EBADSLT
    else if u == 35 then EDEADLOCK
    else if u == 59 then EBFONT
    else if u == 60 then ENOSTR
    else if u == 61 then ENODATA
    else if u == 62 then ETIME
    else if u == 63 then ENOSR
    else if u == 64 then ENONET
    else if u == 65 then ENOPKG
    else if u == 66 then EREMOTE
    else FromCUintTail(u)
  }

  /** The arms of `From<c_uint>` after `EREMOTE`, in source order, and its fallback. */
  function FromCUintTail(u: nat): (e: AVError)
    requires u < TWO_POW_32
    ensures e.Unknown? <==> !(67 <= u <= 133)
  {
    if u == 67 then ENOLINK
    else if u == 68 then EADV
    else if u == 69 then ESRMNT
    else if u == 70 then ECOMM
    else if u == 71 then EPROTO
    else if u == 72 then EMULTIHOP
    else if u == 73 then EDOTDOT
    else if u == 74 then EBADMSG
    else if u == 75 then EOVERFLOW
    else if u == 76 then ENOTUNIQ
    else if u == 77 then EBADFD
    else if u == 78 then EREMCHG
    else if u == 79 then ELIBACC
    else if u == 80 then ELIBBAD
    else if u == 81 then ELIBSCN
    else if u == 82 then ELIBMAX
    else if u == 83 then ELIBEXEC
    else if u == 84 then EILSEQ
    else if u == 85 then ERESTART
    else if u == 86 then ESTRPIPE
    else if u == 87 then EUSERS
    else if u == 88 then ENOTSOCK
    else if u == 89 then EDESTADDRREQ
    else if u == 90 then EMSGSIZE
    else if u == 91 then EPROTOTYPE
    else if u == 92 then ENOPROTOOPT
    else if u == 93 then EPROTONOSUPPORT
    else if u == 94 then ESOCKTNOSUPPORT
    else if u == 95 then EOPNOTSUPP
    else if u == 96 then EPFNOSUPPORT
    else if u == 97 then EAFNOSUPPORT
    else if u == 98 then EADDRINUSE
    else if u == 99 then EADDRNOTAVAIL
    else if u == 100 then ENETDOWN
    else if u == 101 then ENETUNREACH
    else if u == 102 then ENETRESET
    else if u == 103 then ECONNABORTED
    else if u == 104 then ECONNRESET
    else if u == 105 then ENOBUFS
    else if u == 106 then EISCONN
    else if u == 107 then ENOTCONN
    else if u == 108 then ESHUTDOWN
    else if u == 109 then ETOOMANYREFS
    else if u == 110 then ETIMEDOUT
    else if u == 111 then ECONNREFUSED
    else if u == 112 then EHOSTDOWN
    else if u == 113 then EHOSTUNREACH
    else if u == 114 then EALREADY
    else if u == 115 then EINPROGRESS
    else if u == 116 then ESTALE
    else if u == 117 then EUCLEAN
    else if u == 118 then ENOTNAM
    else if u == 119 then ENAVAIL
    else if u == 120 then EISNAM
    else if u == 121 then EREMOTEIO
    else if u == 122 then EDQUOT
    else if u == 123 then ENOMEDIUM
    else if u == 124 then EMEDIUMTYPE
    else if u == 125 then ECANCELED
    else if u == 126 then ENOKEY
    else if u == 127 then EKEYEXPIRED
    else if u == 128 then EKEYREVOKED
    else if u == 129 then EKEYREJECTED
    else if u == 130 then EOWNERDEAD
    else if u == 131 then ENOTRECOVERABLE
    else if u == 132 then ERFKILL
    else if u == 133 then EHWPOISON
    else if u == 95 then ENOTSUP
    else AVError.Unknown(AsI32(u))
  }

  /**
   * `From<c_int>`: the AVERROR tags first, AVERROR_UNKNOWN giving
   * `Unknown(0)`; any other code is negated and decoded as an errno number.
   * Negating `i32::MIN` overflows, a panic in a debug build.
   */
  function FromCInt(x: int): (r: Outcome<AVError>)
    requires I32_MIN <= x <= I32_MAX
    ensures r.Panic? <==> x == I32_MIN
  {
    if x == AVERROR_BSF_NOT_FOUND then Ok(BsfNotFound)
    else if x == AVERROR_BUG then Ok(Bug)
    else if x == AVERROR_BUFFER_TOO_SMALL then Ok(BufferTooSmall)
    else if x == AVERROR_DECODER_NOT_FOUND then Ok(DecoderNotFound)
    else if x == AVERROR_DEMUXER_NOT_FOUND then Ok(DemuxerNotFound)
    else if x == AVERROR_ENCODER_NOT_FOUND then Ok(EncoderNotFound)
    else if x == AVERROR_EOF then Ok(Eof)
    else if x == AVERROR_EXIT then Ok(Exit)
    else if x == AVERROR_EXTERNAL then Ok(External)
    else if x == AVERROR_FILTER_NOT_FOUND then Ok(FilterNotFound)
    else if x == AVERROR_INVALIDDATA then Ok(Invaliddata)
    else if x == AVERROR_MUXER_NOT_FOUND then Ok(MuxerNotFound)
    else if x == AVERROR_OPTION_NOT_FOUND then Ok(OptionNotFound)
    else if x == AVERROR_PATCHWELCOME then Ok(Patchwelcome)
    else if x == AVERROR_PROTOCOL_NOT_FOUND then Ok(ProtocolNotFound)
    else if x == AVERROR_STREAM_NOT_FOUND then Ok(StreamNotFound)
    else if x == AVERROR_BUG2 then Ok(Bug2)
    else if x == AVERROR_UNKNOWN then Ok(AVError.Unknown(0))
    else if x == AVERROR_HTTP_BAD_REQUEST then Ok(HttpBadRequest)
    else if x == AVERROR_HTTP_UNAUTHORIZED then Ok(HttpUnauthorized)
    else if x == AVERROR_HTTP_FORBIDDEN then Ok(HttpForbidden)
    else if x == AVERROR_HTTP_NOT_FOUND then Ok(HttpNotFound)
    else if x == AVERROR_HTTP_OTHER_4XX then Ok(HttpOther4xx)
    else if x == AVERROR_HTTP_SERVER_ERROR then Ok(HttpServerError)
    else if x == I32_MIN then Panic
    else Ok(FromCUint(AsU32(-x)))
  }

  /** A negated errno number (anything from -1 down to -(2^29 - 1)) decodes through the errno arms. */
  lemma NegatedErrno(n: nat)
    requires 0 < n < 0x2000_0000
    ensures FromCInt(-(n as int)) == Ok(FromCUint(n))
  {
    var x := -(n as int);
    if IsTag(x) {
      TagsAreLarge(x);
    }
  }

  /**
   * A code that is neither a tag nor the negation of a known errno number
   * becomes `Unknown` of the negated code, not of the code itself; a
   * positive code therefore ends up as a negative `Unknown`.
   */
  lemma UnknownIsNegated(x: int)
    requires I32_MIN < x <= I32_MAX && !IsTag(x)
    requires !KnownErrno(AsU32(-x))
    ensures FromCInt(x) == Ok(AVError.Unknown(-x))
  {
  }

  /** AVERROR_UNKNOWN decodes to `Unknown(0)`; zero is not a tag and ends in `Unknown(0)` too. */
  lemma UnknownTag()
    ensures FromCInt(AVERROR_UNKNOWN) == Ok(AVError.Unknown(0))
    ensures FromCInt(0) == Ok(AVError.Unknown(0))
  {
  }

  /** Each AVERROR tag decodes to its own variant. */
  lemma TagsDecode()

    ensures FromCInt(AVERROR_BSF_NOT_FOUND) == Ok(BsfNotFound)
    ensures FromCInt(AVERROR_BUG) == Ok(Bug)
    ensures FromCInt(AVERROR_BUFFER_TOO_SMALL) == Ok(BufferTooSmall)
    ensures FromCInt(AVERROR_DECODER_NOT_FOUND) == Ok(DecoderNotFound)
    ensures FromCInt(AVERROR_DEMUXER_NOT_FOUND) == Ok(DemuxerNotFound)
    ensures FromCInt(AVERROR_ENCODER_NOT_FOUND) == Ok(EncoderNotFound)
    ensures FromCInt(AVERROR_EOF) == Ok(Eof)
    ensures FromCInt(AVERROR_EXIT) == Ok(Exit)
    ensures FromCInt(AVERROR_EXTERNAL) == Ok(External)
    ensures FromCInt(AVERROR_FILTER_NOT_FOUND) == Ok(FilterNotFound)
    ensures FromCInt(AVERROR_INVALIDDATA) == Ok(Invaliddata)
    ensures FromCInt(AVERROR_MUXER_NOT_FOUND) == Ok(MuxerNotFound)
    ensures FromCInt(AVERROR_OPTION_NOT_FOUND) == Ok(OptionNotFound)
    ensures FromCInt(AVERROR_PATCHWELCOME) == Ok(Patchwelcome)
    ensures FromCInt(AVERROR_PROTOCOL_NOT_FOUND) == Ok(ProtocolNotFound)
    ensures FromCInt(AVERROR_STREAM_NOT_FOUND) == Ok(StreamNotFound)
    ensures FromCInt(AVERROR_BUG2) == Ok(Bug2)
    ensures FromCInt(AVERROR_UNKNOWN) == Ok(AVError.Unknown(0))
    ensures FromCInt(AVERROR_HTTP_BAD_REQUEST) == Ok(HttpBadRequest)
    ensures FromCInt(AVERROR_HTTP_UNAUTHORIZED) == Ok(HttpUnauthorized)
    ensures FromCInt(AVERROR_HTTP_FORBIDDEN) == Ok(HttpForbidden)
    ensures FromCInt(AVERROR_HTTP_NOT_FOUND) == Ok(HttpNotFound)
    ensures FromCInt(AVERROR_HTTP_OTHER_4XX) == Ok(HttpOther4xx)
    ensures FromCInt(AVERROR_HTTP_SERVER_ERROR) == Ok(HttpServerError)
  {
  }

  /** Errno numbers that Linux gives two names decode to the name whose arm comes first. */
  lemma AliasedErrnos()
    ensures FromCUint(11) == EAGAIN && FromCUint(35) == EDEADLK && FromCUint(95) == EOPNOTSUPP
  {
  }

  /** The later of two names for one errno number is never produced. */
  lemma ShadowedNames(u: nat)
    requires u < TWO_POW_32
    ensures FromCUint(u) != EWOULDBLOCK && FromCUint(u) != EDEADLOCK && FromCUint(u) != ENOTSUP
  {
  }

  /** `AVCodecType` (the stream's media type). */
  datatype AVCodecType = Unknown | Video | Audio | Data | Subtitle | Attachment | Nb

  /** `AVCodecType::from`. */
  function CodecTypeFrom(x: int): (t: AVCodecType)
    ensures t == AVCodecType.Unknown <==> x < 0 || x > 5
  {
    match x
    case 0 => Video
    case 1 => Audio
    case 2 => Data
    case 3 => Subtitle
    case 4 => Attachment
    case 5 => Nb
    case _ => AVCodecType.Unknown
  }

  /** libavutil's `AVMEDIA_TYPE_*` value of each media type. */
  function MediaTypeCode(t: AVCodecType): (x: int)
    ensures -1 <= x <= 5
  {
    match t
    case Unknown => -1
    case Video => 0
    case Audio => 1
    case Data => 2
    case Subtitle => 3
    case Attachment => 4
    case Nb => 5
  }

  /** `AVCodecType::from` inverts libavutil's numbering, and nothing else maps onto a known type. */
  lemma CodecTypeRoundTrip(t: AVCodecType, x: int)
    ensures CodecTypeFrom(MediaTypeCode(t)) == t
    ensures CodecTypeFrom(x) != AVCodecType.Unknown ==> MediaTypeCode(CodecTypeFrom(x)) == x
  {
  }

  /** The variants of `AVPixelFormat`, in declaration order; variant 0 is NONE. */
  const PIXEL_FORMATS: seq<string> := [
    "NONE", "YUV420P", "YUYV422", "RGB24", "BGR24", "YUV422P",
    "YUV444P", "YUV410P", "YUV411P", "GRAY8", "MONOWHITE", "MONOBLACK",
    "PAL8", "YUVJ420P", "YUVJ422P", "YUVJ444P", "UYVY422", "UYYVYY411",
    "BGR8", "BGR4", "BGR4Byte", "RGB8", "RGB4", "RGB4Byte",
    "NV12", "NV21", "ARGB", "RGBA", "ABGR", "BGRA",
    "GRAY16BE", "GRAY16LE", "YUV440P", "YUVJ440P", "YUVA420P", "RGB48BE",
    "RGB48LE", "RGB565BE", "RGB565LE", "RGB555BE", "RGB555LE", "BGR565BE",
    "BGR565LE", "BGR555BE", "BGR555LE", "VAAPI", "YUV420P16LE", "YUV420P16BE",
    "YUV422P16LE", "YUV422P16BE", "YUV444P16LE", "YUV444P16BE", "DXVA2_VLD", "RGB444LE",
    "RGB444BE", "BGR444LE", "BGR444BE", "GRAY8A", "BGR48BE", "BGR48LE",
    "YUV420P9BE", "YUV420P9LE", "YUV420P10BE", "YUV420P10LE", "YUV422P10BE", "YUV422P10LE",
    "YUV444P9BE", "YUV444P9LE", "YUV444P10BE", "YUV444P10LE", "YUV422P9BE", "YUV422P9LE",
    "GBRP", "GBRP9BE", "GBRP9LE", "GBRP10BE", "GBRP10LE", "GBRP16BE",
    "GBRP16LE", "YUVA422P", "YUVA444P", "YUVA420P9BE", "YUVA420P9LE", "YUVA422P9BE",
    "YUVA422P9LE", "YUVA444P9BE", "YUVA444P9LE", "YUVA420P10BE", "YUVA420P10LE", "YUVA422P10BE",
    "YUVA422P10LE", "YUVA444P10BE", "YUVA444P10LE", "YUVA420P16BE", "YUVA420P16LE", "YUVA422P16BE",
    "YUVA422P16LE", "YUVA444P16BE", "YUVA444P16LE", "VDPAU", "XYZ12LE", "XYZ12BE",
    "NV16", "NV20LE", "NV20BE", "RGBA64BE", "RGBA64LE", "BGRA64BE",
    "BGRA64LE", "YVYU422", "YA16BE", "YA16LE", "GBRAP", "GBRAP16BE",
    "GBRAP16LE", "QSV", "MMAL", "D3D11VA_VLD", "CUDA", "RGB",
    "RGB0", "BGR", "BGR0", "YUV420P12BE", "YUV420P12LE", "YUV420P14BE",
    "YUV420P14LE", "YUV422P12BE", "YUV422P12LE", "YUV422P14BE", "YUV422P14LE", "YUV444P12BE",
    "YUV444P12LE", "YUV444P14BE", "YUV444P14LE", "GBRP12BE", "GBRP12LE", "GBRP14BE",
    "GBRP14LE", "YUVJ411P", "BAYER_BGGR8", "BAYER_RGGB8", "BAYER_GBRG8", "BAYER_GRBG8",
    "BAYER_BGGR16LE", "BAYER_BGGR16BE", "BAYER_RGGB16LE", "BAYER_RGGB16BE", "BAYER_GBRG16LE", "BAYER_GBRG16BE",
    "BAYER_GRBG16LE", "BAYER_GRBG16BE", "XVMC", "YUV440P10LE", "YUV440P10BE", "YUV440P12LE",
    "YUV440P12BE", "AYUV64LE", "AYUV64BE", "VIDEOTOOLBOX", "P010LE", "P010BE",
    "GBRAP12BE", "GBRAP12LE", "GBRAP10BE", "GBRAP10LE", "MEDIACODEC", "GRAY12BE",
    "GRAY12LE", "GRAY10BE", "GRAY10LE", "P016LE", "P016BE", "D3D11",
    "GRAY9BE", "GRAY9LE", "GBRPF32BE", "GBRPF32LE", "GBRAPF32BE", "GBRAPF32LE",
    "DRM_PRIME", "OPENCL", "GRAY14BE", "GRAY14LE", "GRAYF32BE", "GRAYF32LE",
    "YUVA422P12BE", "YUVA422P12LE", "YUVA444P12BE", "YUVA444P12LE", "NV24", "NV42",
    "VULKAN", "Y210BE", "Y210LE", "X2RGB10LE", "X2RGB10BE", "X2BGR10LE",
    "X2BGR10BE", "P210BE", "P210LE", "P410BE", "P410LE", "P216BE",
    "P216LE", "P416BE", "P416LE", "VUYA", "RGBAF16BE", "RGBAF16LE",
    "VUYX", "P012LE", "P012BE", "Y212BE", "Y212LE", "XV30BE",
    "XV30LE", "XV36BE", "XV36LE", "RGBF32BE", "RGBF32LE", "RGBAF32BE",
    "RGBAF32LE", "P212BE", "P212LE", "P412BE", "P412LE", "GBRAP14BE",
    "GBRAP14LE", "NB"
  ]

  /** A pixel format, as its position in `PIXEL_FORMATS`. */
  datatype AVPixelFormat = AVPixelFormat(ordinal: nat)

  const NONE: AVPixelFormat := AVPixelFormat(0)

  /**
   * The discriminants of the pixel formats, in declaration order: one
   * `AV_PIX_FMT_*` constant per variant. Rust accepts the enum only when they
   * are pairwise distinct, and they are `i32`s.
   */
  predicate PixelCodes(codes: seq<int>)
  {
    |codes| == |PIXEL_FORMATS| &&
    (forall k :: 0 <= k < |codes| ==> I32_MIN <= codes[k] <= I32_MAX) &&
    (forall j, k :: 0 <= j < k < |codes| ==> codes[j] != codes[k])
  }

  /** The position of the first occurrence of `v` in `s`. */
  function FirstIndex(s: seq<int>, v: int): (r: Option<nat>)
    ensures r.Some? ==> r.value < |s| && s[r.value] == v && forall j :: 0 <= j < r.value ==> s[j] != v
    ensures r.None? <==> v !in s
  {
    if s == [] then None
    else if s[0] == v then Some(0)
    else match FirstIndex(s[1..], v)
      case None => None
      case Some(k) => Some(k + 1)
  }

  /** `AVPixelFormat::from`: the variant whose constant matches, else NONE. */
  function PixelFormatFrom(codes: seq<int>, v: int): (f: AVPixelFormat)
    requires PixelCodes(codes)
    ensures f.ordinal < |PIXEL_FORMATS|
  {
    match FirstIndex(codes, v)
    case Some(k) => AVPixelFormat(k)
    case None => NONE
  }

  /** `f as i32`. */
  function Discriminant(codes: seq<int>, f: AVPixelFormat): int
    requires PixelCodes(codes) && f.ordinal < |PIXEL_FORMATS|
  {
    codes[f.ordinal]
  }

  /**
   * Converting a declared format to its integer and back gives the same
   * format, and an integer that is no format's constant gives NONE.
   */
  lemma PixelFormatRoundTrip(codes: seq<int>, f: AVPixelFormat, v: int)
    requires PixelCodes(codes) && f.ordinal < |PIXEL_FORMATS|
    ensures PixelFormatFrom(codes, Discriminant(codes, f)) == f
    ensures v !in codes ==> PixelFormatFrom(codes, v) == NONE
  {
    assert codes[f.ordinal] in codes;
  }
}
