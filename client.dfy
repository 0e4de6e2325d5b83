/**
 * `JVLinkClient`: the handle on the JV-Link COM object. Two flags guard it:
 * `is_initialized`, set once `JVInit` succeeds, and `is_open`, set while a
 * data stream is open. The COM object is an oracle: every call into it is a
 * parameter holding the reply it gives (a value, a malformed value or an
 * exception).
 */
module JvLink {
  import opened Wrappers
  import opened PyText
  import opened Records

  const ErrorCodes: map<int, string> := map[
    0 := "正常終了", -1 := "パラメータエラー/ファイル切り替わり", -2 := "初期化前エラー",
    -3 := "ファイルダウンロード中", -100 := "その他エラー", -101 := "該当データ無し",
    -102 := "集計データ配信前", -103 := "集計データ配信前", -111 := "ユーザキャンセル",
    -112 := "ダイアログ起動エラー", -114 := "ファイル削除エラー", -115 := "ファイル削除中",
    -116 := "サービス利用なし", -118 := "保存パス指定エラー", -201 := "JVInit未実行",
    -202 := "前回のJVOpenが開いたまま", -203 := "パラメータエラー", -204 := "該当ファイル無し",
    -211 := "サービスキー認証エラー", -212 := "サービスキー有効期限切れ", -301 := "認証エラー",
    -302 := "サービス利用なし", -303 := "サービス有効期限切れ", -401 := "JVOpen未実行",
    -402 := "バッファ不足エラー", -403 := "ファイルアクセスエラー", -411 := "レジストリアクセスエラー",
    -412 := "レジストリアクセスエラー", -413 := "レジストリアクセスエラー", -421 := "レジストリアクセスエラー",
    -431 := "レジストリアクセスエラー", -501 := "スタートキットダウンロード中",
    -502 := "サーバーメンテナンス中", -503 := "スタートキットパラメータエラー",
    -504 := "スタートキットダウンロードエラー"]

  const UndefinedPrefix := "未定義エラー("

  /** `get_error_message`: the table's message, or the code written out in
      decimal inside `未定義エラー(…)`. */
  function ErrorMessage(code: int): (r: string)
    ensures code in ErrorCodes ==> r == ErrorCodes[code]
    ensures code !in ErrorCodes ==> |r| > |UndefinedPrefix| + 1 && r[..|UndefinedPrefix|] == UndefinedPrefix && r[|r| - 1] == ')'
  {
    if code in ErrorCodes then ErrorCodes[code] else UndefinedPrefix + IntToDecimal(code) + ")"
  }

  /** An undefined code can be read back from its message. */
  lemma UndefinedMessageNamesCode(code: int)
    requires code !in ErrorCodes
    ensures var r := ErrorMessage(code); PyInt(r[|UndefinedPrefix|..|r| - 1]) == Some(code)
  {
    var r := ErrorMessage(code);
    assert r[|UndefinedPrefix|..|r| - 1] == IntToDecimal(code);
    PyIntOfDecimal(code);
  }

  // ---------------------------------------------------------------- COM replies

  /** What a COM method call gives back: a value or an exception. */
  datatype Call<T> = Returns(value: T) | Throws

  /** The data part of a `JVRead`/`JVGets` reply: `None`, a VARIANT (an object
      with a `value`), a `str`, a `bytes`, or any other object. */
  datatype ComData = Null | Variant(value: Bytes) | Text(text: Bytes) | Raw(bytes: Bytes) | OtherObject

  /** The reply of `JVOpen`: the four-tuple of output parameters, or a bare
      return code. */
  datatype OpenReply = Tuple4(ret: int, readCount: int, downloadCount: int, lastTimestamp: string) | Bare(code: int)

  /** The reply of `JVRead`: a three-tuple, something else, or an
      exception, which `read` does not catch. */
  datatype ReadReply = Triple(ret: int, data: ComData, filename: string) | NotTriple | ReadThrows

  /** The reply of `JVGets`: a tuple of at least three items, something
      else, an `AttributeError` (the method does not exist), or another
      exception. */
  datatype GetsReply = GetsTuple(ret: int, data: ComData, filename: string) | NotTuple
                     | NoGets(fallback: ReadReply) | GetsThrows

  /** The data `read` returns: a `str` is encoded, anything else kept. */
  function ReadData(d: ComData): (p: Payload)
    ensures p.Buffer? <==> d.Text? || d.Raw?
  {
    match d
    case Text(s) => Buffer(s)
    case Raw(b) => Buffer(b)
    case _ => Foreign
  }

  /** The data `gets` returns: `None` becomes `b""`, a VARIANT its bytes, a
      `str` its encoding; any other object is passed on. */
  function GetsData(d: ComData): (p: Payload)
    ensures p.Foreign? <==> d.OtherObject?
    ensures d.Null? ==> p == Buffer([])
  {
    match d
    case Null => Buffer([])
    case Variant(b) => Buffer(b)
    case Text(s) => Buffer(s)
    case Raw(b) => Buffer(b)
    case OtherObject => Foreign
  }

  /** What `read` returns for a reply, on an open or a closed handle,
      `None` when `JVRead` raises. */
  function ReadResult(isOpen: bool, reply: ReadReply): (r: Option<(int, Payload, string)>)
    ensures r.None? <==> isOpen && reply.ReadThrows?
    ensures !isOpen ==> r == Some((-401, Buffer([]), ""))
    ensures isOpen && reply.NotTriple? ==> r == Some((-100, Buffer([]), ""))
    ensures isOpen && reply.Triple? ==> r.Some? && r.value.0 == reply.ret && r.value.2 == reply.filename
  {
    if !isOpen then Some((-401, Buffer([]), ""))
    else match reply
      case ReadThrows => None
      case NotTriple => Some((-100, Buffer([]), ""))
      case Triple(ret, data, filename) => Some((ret, ReadData(data), filename))
  }

  /** What `gets` returns for a reply, `None` when an exception leaves it:
      one from `JVGets` other than `AttributeError`, or one from `JVRead`
      in the fallback, which runs inside the `except` block. */
  function GetsResult(isOpen: bool, reply: GetsReply): (r: Option<(int, Payload, string)>)
    ensures r.None? <==> isOpen && (reply.GetsThrows? || (reply.NoGets? && reply.fallback.ReadThrows?))
    ensures !isOpen ==> r == Some((-401, Buffer([]), ""))
    ensures isOpen && reply.NotTuple? ==> r == Some((-100, Buffer([]), ""))
    ensures isOpen && reply.NoGets? ==> r == ReadResult(true, reply.fallback)
  {
    if !isOpen then Some((-401, Buffer([]), ""))
    else match reply
      case GetsThrows => None
      case NotTuple => Some((-100, Buffer([]), ""))
      case NoGets(fallback) => ReadResult(true, fallback)
      case GetsTuple(ret, data, filename) => Some((ret, GetsData(data), filename))
  }

  /** `gets` and `read` agree on the status code and file name of the same
      three items; they differ only in how a `None` or VARIANT payload is
      converted. */
  lemma GetsAgreesWithRead(ret: int, data: ComData, filename: string)
    ensures var g := GetsResult(true, GetsTuple(ret, data, filename)).value;
      var r := ReadResult(true, Triple(ret, data, filename)).value;
      g.0 == r.0 && g.2 == r.2 && (r.1.Buffer? ==> g.1 == r.1)
  {
  }

  /** A payload `gets` hands to the parser is a byte buffer unless COM gave
      an object of no known kind. */
  lemma GetsPayloadParses(reply: GetsReply)
    requires reply.GetsTuple? && !reply.data.OtherObject?
    ensures var p := GetsResult(true, reply).value.1; Decode(p) != ParseError
  {
  }

  // ---------------------------------------------------------------- the handle

  class Client {
    /** Whether `self.jvlink` holds a COM object. */
    var hasCom: bool
    var isInitialized: bool
    var isOpen: bool

    /** A handle is only open when initialized, and only initialized when it
        holds a COM object. */
    ghost predicate Valid()
      reads this
    {
      (isOpen ==> isInitialized) && (isInitialized ==> hasCom)
    }

    constructor()
      ensures Valid() && !hasCom && !isInitialized && !isOpen
    {
      hasCom := false;
      isInitialized := false;
      isOpen := false;
    }

    /** `initialize`: create the COM object unless there is one (`dispatch`
        is whether `Dispatch` succeeds), then call `JVInit`. Any exception
        gives -100. The handle becomes initialized only when `JVInit`
        returns 0, and an earlier success is never undone. */
    method Initialize(dispatch: bool, init: Call<int>) returns (ret: int)
      requires Valid()
      modifies this
      ensures Valid() && isOpen == old(isOpen)
      ensures hasCom == (old(hasCom) || dispatch)
      ensures !old(hasCom) && !dispatch ==> ret == -100 && isInitialized == old(isInitialized)
      ensures hasCom && init.Throws? ==> ret == -100 && isInitialized == old(isInitialized)
      ensures hasCom && init.Returns? ==> ret == init.value && isInitialized == (old(isInitialized) || ret == 0)
    {
      if !hasCom {
        if !dispatch {
          return -100;
        }
        hasCom := true;
      }
      if init.Throws? {
        return -100;
      }
      ret := init.value;
      if ret == 0 {
        isInitialized := true;
      }
    }

    /** `close`: call `JVClose` (which replies `closeRet`) only on an open
        handle; otherwise 0 and nothing changes. */
    method Close(closeRet: int) returns (ret: int)
      requires Valid()
      modifies this
      ensures Valid() && !isOpen
      ensures hasCom == old(hasCom) && isInitialized == old(isInitialized)
      ensures ret == if old(isOpen) then closeRet else 0
    {
      if hasCom && isOpen {
        ret := closeRet;
        isOpen := false;
      } else {
        ret := 0;
      }
    }

    /** `open`: -201 with no effect unless initialized; otherwise close an
        open stream first, call `JVOpen` and become open when its code is
        not negative. `raised` says that `JVOpen` threw, which `open` does
        not catch. */
    method Open(reply: Call<OpenReply>, closeRet: int)
      returns (ret: int, readCount: int, downloadCount: int, lastTimestamp: string, raised: bool)
      requires Valid()
      modifies this
      ensures Valid() && hasCom == old(hasCom) && isInitialized == old(isInitialized)
      ensures !old(isInitialized) ==> !raised && (ret, readCount, downloadCount, lastTimestamp) == (-201, 0, 0, "")
      ensures !old(isInitialized) ==> isOpen == old(isOpen)
      ensures old(isInitialized) ==> raised == reply.Throws?
      ensures old(isInitialized) && raised ==> !isOpen
      ensures old(isInitialized) && !raised ==> isOpen == (ret >= 0)
      ensures old(isInitialized) && reply.Returns? && reply.value.Tuple4? ==>
        (ret, readCount, downloadCount, lastTimestamp) ==
        (reply.value.ret, reply.value.readCount, reply.value.downloadCount, reply.value.lastTimestamp)
      ensures old(isInitialized) && reply.Returns? && reply.value.Bare? ==>
        (ret, readCount, downloadCount, lastTimestamp) == (reply.value.code, 0, 0, "")
    {
      if !isInitialized {
        return -201, 0, 0, "", false;
      }
      if isOpen {
        var _ := Close(closeRet);
      }
      if reply.Throws? {
        return -100, 0, 0, "", true;
      }
      match reply.value {
        case Tuple4(r, rc, dc, ts) =>
          ret, readCount, downloadCount, lastTimestamp := r, rc, dc, ts;
        case Bare(code) =>
          ret, readCount, downloadCount, lastTimestamp := code, 0, 0, "";
      }
      raised := false;
      if ret >= 0 {
        isOpen := true;
      }
    }

    /** `open_realtime`: -201 with no effect unless initialized; otherwise
        close an open stream first, call `JVRTOpen` and become open only
        when it returns exactly 0. */
    method OpenRealtime(reply: Call<int>, closeRet: int) returns (ret: int, raised: bool)
      requires Valid()
      modifies this
      ensures Valid() && hasCom == old(hasCom) && isInitialized == old(isInitialized)
      ensures !old(isInitialized) ==> !raised && ret == -201 && isOpen == old(isOpen)
      ensures old(isInitialized) ==> raised == reply.Throws?
      ensures old(isInitialized) && raised ==> !isOpen
      ensures old(isInitialized) && !raised ==> ret == reply.value && isOpen == (ret == 0)
    {
      if !isInitialized {
        return -201, false;
      }
      if isOpen {
        var _ := Close(closeRet);
      }
      if reply.Throws? {
        return -100, true;
      }
      ret, raised := reply.value, false;
      if ret == 0 {
        isOpen := true;
      }
    }

    /** `read`; `raised` when `JVRead` throws. */
    method Read(reply: ReadReply) returns (ret: int, data: Payload, filename: string, raised: bool)
      ensures raised <==> ReadResult(isOpen, reply).None?
      ensures !raised ==> (ret, data, filename) == ReadResult(isOpen, reply).value
    {
      if !isOpen {
        return -401, Buffer([]), "", false;
      }
      match reply
      case ReadThrows =>
        return 0, Buffer([]), "", true;
      case NotTriple =>
        return -100, Buffer([]), "", false;
      case Triple(r, d, f) =>
        ret, data, filename, raised := r, ReadData(d), f, false;
    }

    /** `gets`; `raised` when `JVGets` throws anything but an
        `AttributeError`, or `JVRead` throws in the fallback. */
    method Gets(reply: GetsReply) returns (ret: int, data: Payload, filename: string, raised: bool)
      ensures raised <==> GetsResult(isOpen, reply).None?
      ensures !raised ==> (ret, data, filename) == GetsResult(isOpen, reply).value
    {
      if !isOpen {
        return -401, Buffer([]), "", false;
      }
      match reply
      case GetsThrows =>
        return 0, Buffer([]), "", true;
      case NotTuple =>
        return -100, Buffer([]), "", false;
      case NoGets(fallback) =>
        ret, data, filename, raised := Read(fallback);
      case GetsTuple(r, d, f) =>
        ret, data, filename, raised := r, GetsData(d), f, false;
    }

    /** `status`: `JVStatus`'s reply, or -1 without a COM object. */
    method Status(reply: int) returns (ret: int)
      ensures ret == if hasCom then reply else -1
    {
      ret := if hasCom then reply else -1;
    }

    /** `set_save_path`: `JVSetSavePath`'s reply, or -1 without a COM
        object. */
    method SetSavePath(path: string, reply: int) returns (ret: int)
      ensures ret == if hasCom then reply else -1
    {
      ret := if hasCom then reply else -1;
    }

    /** `set_save_flag`: `JVSetSaveFlag`'s reply, or -1 without a COM
        object. */
    method SetSaveFlag(flag: int, reply: int) returns (ret: int)
      ensures ret == if hasCom then reply else -1
    {
      ret := if hasCom then reply else -1;
    }
  }

  /** Closing twice is closing once: the second call returns 0 and changes
      nothing. */
  method CloseIsIdempotent(c: Client, closeRet: int, again: int) returns (first: int, second: int)
    requires c.Valid()
    modifies c
    ensures second == 0 && !c.isOpen
    ensures c.isInitialized == old(c.isInitialized) && c.hasCom == old(c.hasCom)
  {
    first := c.Close(closeRet);
    second := c.Close(again);
  }
}
