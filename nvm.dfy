/**
  The ESP32 non-volatile storage wrapper: lifecycle flags (nvmBegan), a
  cooperative lock flag (threadLock), the little-endian encoding of integer
  keys into the key strings the vendor store is indexed by, and the typed and
  character-array reads and writes with their rejection rules.

  The vendor store (nvs_flash_* and nvs_*) is abstract: its contents are a map
  from the key string the store sees to the entry stored there, and every
  vendor call takes a boolean saying whether it succeeded, so that each
  failure path can be followed.
 */
module Nvm {
  import opened Wrappers
  import opened Arith

  /** The string terminator written after the key bytes. */
  const END_OF_CHAR: UInt8 := 0

  /**
    Build constants of the storage layer whose values are configured outside
    the modelled files: NVM_MAX_SIZE_BYTES, NVM_MAX_SIZE, DEFAULT_NVM_SIZE,
    NVM_SIZE, DEFAULT_INT, DEFAULT_BOOL and CHAR_LEN_ERROR.
   */
  datatype Config = Config(
    keyBytes: nat,
    maxSize: nat,
    defaultSize: nat,
    nvmSize: nat,
    defaultInt: int,
    defaultBool: bool,
    charLenError: UInt8)

  /** Result of nvmInit; InitLockHeld is the value 0 that THREAD_LOCK returns as `false`. */
  datatype StartCode = NvmOk | NvmStarted | NvmInvalidSize | NvmFailed | InitLockHeld

  /** Result of nvmSetDefaults; DefaultLockHeld is the value 0 that THREAD_LOCK returns as `false`. */
  datatype DefaultCode =
    | DefaultOk | DefaultSizeTooBig | DefaultFailMaxSize | DefaultFailClear
    | DefaultFailStop | DefaultFailInit | DefaultLockHeld

  /** The integer types the vendor store keeps. */
  datatype IntType = U8 | I8 | U16 | I16 | U32 | I32 | U64 | I64

  /** 2 to the number of bits of the type. */
  function Modulus(ty: IntType): nat
  {
    match ty
    case U8 | I8 => 0x100
    case U16 | I16 => 0x1_0000
    case U32 | I32 => 0x1_0000_0000
    case U64 | I64 => 0x1_0000_0000_0000_0000
  }

  predicate Signed(ty: IntType)
  {
    ty == I8 || ty == I16 || ty == I32 || ty == I64
  }

  /** Whether x is a value of the C type. */
  predicate InRange(ty: IntType, x: int)
  {
    if Signed(ty) then -(Modulus(ty) / 2) <= x < Modulus(ty) / 2 else 0 <= x < Modulus(ty)
  }

  /** The C conversion of an integer to the type: two's complement wrap-around. */
  function Cast(ty: IntType, x: int): (r: int)
    ensures InRange(ty, r)
    ensures r % Modulus(ty) == x % Modulus(ty)
    ensures InRange(ty, x) ==> r == x
  {
    RemainderFacts(Modulus(ty), x);
    var u := x % Modulus(ty);
    if Signed(ty) && u >= Modulus(ty) / 2 then u - Modulus(ty) else u
  }

  /** An entry of the vendor store: an integer of a given type, or a string. */
  datatype Entry = IntEntry(ty: IntType, value: int) | StrEntry(chars: seq<UInt8>)

  // ---------------------------------------------------------------------
  // Integer keys as byte strings
  // ---------------------------------------------------------------------

  /** The n little-endian bytes of key, lowest first. */
  function KeyBytes(key: nat, n: nat): (bytes: seq<UInt8>)
    ensures |bytes| == n
  {
    if n == 0 then [] else [(key % 256)] + KeyBytes(key / 256, n - 1)
  }

  /** Little-endian value of a byte string. */
  function DecodeLE(bytes: seq<UInt8>): nat
  {
    if |bytes| == 0 then 0 else bytes[0] + 256 * DecodeLE(bytes[1..])
  }

  /** Byte i of the encoding is (key >> 8i) truncated to 8 bits. */
  lemma {:induction false} KeyBytesAt(key: nat, n: nat, i: nat)
    requires i < n
    ensures KeyBytes(key, n)[i] == ((key / Pow2(8 * i)) % 256)
    decreases i
  {
    if i > 0 {
      KeyBytesAt(key / 256, n - 1, i - 1);
      Pow2Add(8, 8 * (i - 1));
      assert Pow2(8) == 256;
      DivDiv(key, 256, Pow2(8 * (i - 1)));
    }
  }

  /** Decoding the n key bytes gives back key modulo 2^(8n). */
  lemma {:induction false} KeyBytesDecode(key: nat, n: nat)
    ensures DecodeLE(KeyBytes(key, n)) == key % Pow2(8 * n)
    decreases n
  {
    if n > 0 {
      var bytes := KeyBytes(key, n);
      var p := Pow2(8 * (n - 1));
      assert bytes[0] == key % 256;
      assert bytes[1..] == KeyBytes(key / 256, n - 1);
      KeyBytesDecode(key / 256, n - 1);
      assert DecodeLE(bytes) == key % 256 + 256 * ((key / 256) % p);
      Pow2Add(8, 8 * (n - 1));
      assert Pow2(8) == 256;
      assert Pow2(8 * n) == 256 * p;
      ModSplit(key, 256, p);
    }
  }

  /** Encoding is a bijection on keys below 2^(8n): decoding then encoding is the identity on byte strings. */
  lemma {:induction false} DecodeKeyBytes(bytes: seq<UInt8>)
    ensures KeyBytes(DecodeLE(bytes), |bytes|) == bytes
    decreases |bytes|
  {
    if |bytes| > 0 {
      var v := DecodeLE(bytes);
      DecodeKeyBytes(bytes[1..]);
      DivModUnique(v, 256, DecodeLE(bytes[1..]), bytes[0]);
      assert bytes == [bytes[0]] + bytes[1..];
    }
  }

  /** The C string a byte array denotes: the bytes before the first NUL. */
  function CString(bytes: seq<UInt8>): (s: seq<UInt8>)
    ensures |s| <= |bytes| && s == bytes[..|s|]
    ensures forall i :: 0 <= i < |s| ==> s[i] != 0
    ensures |s| < |bytes| ==> bytes[|s|] == 0
  {
    if |bytes| == 0 || bytes[0] == 0 then [] else [bytes[0]] + CString(bytes[1..])
  }

  /** The key string the vendor store sees for an integer key: the encoding cut at the first zero byte. */
  function StoreKey(key: nat, n: nat): seq<UInt8>
  {
    CString(KeyBytes(key, n) + [END_OF_CHAR])
  }

  /** A key whose low byte is zero reaches the store as the empty string, whatever its other bytes. */
  lemma ZeroLowByteKey(key: nat, n: nat)
    requires n >= 1 && key % 256 == 0
    ensures StoreKey(key, n) == []
  {
    assert (KeyBytes(key, n) + [END_OF_CHAR])[0] == 0;
  }

  /** Distinct integer keys can share a store key: 0 and 256 encode differently but both reach the store as "". */
  lemma StoreKeyNotInjective(n: nat)
    requires n >= 2
    ensures KeyBytes(0, n) != KeyBytes(256, n)
    ensures StoreKey(0, n) == StoreKey(256, n)
  {
    assert KeyBytes(0, n)[1] == 0;
    assert KeyBytes(256, n)[1] == 1 by {
      assert KeyBytes(256, n)[1..] == KeyBytes(1, n - 1);
    }
    ZeroLowByteKey(0, n);
    ZeroLowByteKey(256, n);
  }

  /** A key with no zero byte among its n bytes reaches the store with all n bytes. */
  lemma {:induction false} NonZeroKeyBytesKept(bytes: seq<UInt8>)
    requires forall i :: 0 <= i < |bytes| ==> bytes[i] != 0
    ensures CString(bytes + [END_OF_CHAR]) == bytes
    decreases |bytes|
  {
    if |bytes| > 0 {
      assert (bytes + [END_OF_CHAR])[1..] == bytes[1..] + [END_OF_CHAR];
      NonZeroKeyBytesKept(bytes[1..]);
    }
  }

  // ---------------------------------------------------------------------
  // Storage state
  // ---------------------------------------------------------------------

  class NvmState {
    const cfg: Config
    /** Set by a successful nvmInit, cleared by nvmStop. */
    var nvmBegan: bool
    /** Held while an operation talks to the vendor store. */
    var threadLock: bool
    /** Contents of the vendor store, by the key string it sees. */
    var store: map<seq<UInt8>, Entry>

    /** Power-on state over existing flash contents. */
    constructor (cfg: Config, flash: map<seq<UInt8>, Entry>)
      ensures this.cfg == cfg && store == flash && !nvmBegan && !threadLock
    {
      this.cfg := cfg;
      store := flash;
      nvmBegan := false;
      threadLock := false;
    }

    /** THREAD_LOCK: fails when the lock is held, otherwise takes it. */
    method ThreadLock() returns (acquired: bool)
      modifies this`threadLock
      ensures acquired == !old(threadLock) && threadLock
    {
      if threadLock {
        return false;
      }
      threadLock := true;
      return true;
    }

    /** THREAD_UNLOCK. */
    method ThreadUnlock()
      modifies this`threadLock
      ensures !threadLock
    {
      threadLock := false;
    }

    /** Writes the key's NVM_MAX_SIZE_BYTES little-endian bytes and the terminator into keyStr. */
    method KeyToChar(key: nat, keyStr: array<UInt8>)
      requires keyStr.Length == cfg.keyBytes + 1
      modifies keyStr
      ensures keyStr[..] == KeyBytes(key, cfg.keyBytes) + [END_OF_CHAR]
    {
      for i := 0 to cfg.keyBytes
        invariant forall j :: 0 <= j < i ==> keyStr[j] == ((key / Pow2(8 * j)) % 256)
      {
        keyStr[i] := ((key / Pow2(8 * i)) % 256);
      }
      keyStr[cfg.keyBytes] := END_OF_CHAR;
      forall j | 0 <= j < cfg.keyBytes
        ensures keyStr[j] == KeyBytes(key, cfg.keyBytes)[j]
      {
        KeyBytesAt(key, cfg.keyBytes, j);
      }
    }

    /** The key string an integer key reaches the vendor store under. */
    function Key(key: nat): seq<UInt8>
    {
      StoreKey(key, cfg.keyBytes)
    }

    /** Opens the store; requires a size other than DEFAULT_NVM_SIZE, which is otherwise ignored. */
    method NvmInit(size: nat, flashInitOk: bool, openOk: bool) returns (code: StartCode)
      modifies this`nvmBegan, this`threadLock
      ensures old(nvmBegan) ==> code == NvmStarted
      ensures !old(nvmBegan) && size == cfg.defaultSize ==> code == NvmInvalidSize
      ensures !old(nvmBegan) && size != cfg.defaultSize && old(threadLock) ==> code == InitLockHeld
      ensures !old(nvmBegan) && size != cfg.defaultSize && !old(threadLock) ==>
        code == (if flashInitOk && openOk then NvmOk else NvmFailed)
      ensures nvmBegan == (old(nvmBegan) || code == NvmOk)
      ensures threadLock == old(threadLock)
    {
      if nvmBegan {
        return NvmStarted;
      }
      if size == cfg.defaultSize {
        return NvmInvalidSize;
      }
      var acquired := ThreadLock();
      if !acquired {
        return InitLockHeld;
      }
      if !flashInitOk {
        ThreadUnlock();
        return NvmFailed;
      }
      if !openOk {
        ThreadUnlock();
        return NvmFailed;
      }
      nvmBegan := true;
      ThreadUnlock();
      return NvmOk;
    }

    /** The usable size: NVM_MAX_SIZE once begun, DEFAULT_NVM_SIZE and failure before. */
    method NvmMaxSize() returns (ok: bool, size: nat)
      ensures ok <==> nvmBegan
      ensures size == if nvmBegan then cfg.maxSize else cfg.defaultSize
    {
      if nvmBegan {
        return true, cfg.maxSize;
      }
      return false, cfg.defaultSize;
    }

    /** Closes the store; fails when it was not begun. */
    method NvmStop() returns (ok: bool)
      modifies this`nvmBegan
      ensures ok == old(nvmBegan)
      ensures !nvmBegan
    {
      if !nvmBegan {
        return false;
      }
      nvmBegan := false;
      return true;
    }

    /** Erases the whole store; a failed erase is taken to leave it as it was. */
    method NvmClear(eraseOk: bool) returns (ok: bool)
      modifies this`store
      ensures ok == eraseOk
      ensures store == if eraseOk then map[] else old(store)
    {
      if !eraseOk {
        return false;
      }
      store := map[];
      return true;
    }

    /** Whether nvmSetDefaults gets past its size, clear and stop checks. */
    predicate ResetsFrom(began: bool, locked: bool, eraseOk: bool)
    {
      !locked && began && cfg.nvmSize <= cfg.maxSize && eraseOk
    }

    /**
      Erases the store and restarts it: checks begun, size, clear, stop and
      re-init in that order and returns the first failure. The results of the
      critical and environment default writers are parameters.
     */
    method NvmSetDefaults(eraseOk: bool, flashInitOk: bool, openOk: bool,
                          critCode: DefaultCode, envCode: DefaultCode) returns (code: DefaultCode)
      modifies this`nvmBegan, this`threadLock, this`store
      ensures old(threadLock) ==>
        code == DefaultLockHeld && threadLock && nvmBegan == old(nvmBegan) && store == old(store)
      ensures !old(threadLock) ==> !threadLock
      ensures !old(threadLock) && !old(nvmBegan) ==>
        code == DefaultFailMaxSize && !nvmBegan && store == old(store)
      ensures !old(threadLock) && old(nvmBegan) && cfg.nvmSize > cfg.maxSize ==>
        code == DefaultSizeTooBig && nvmBegan && store == old(store)
      ensures !old(threadLock) && old(nvmBegan) && cfg.nvmSize <= cfg.maxSize && !eraseOk ==>
        code == DefaultFailClear && nvmBegan && store == old(store)
      ensures ResetsFrom(old(nvmBegan), old(threadLock), eraseOk) ==>
        && store == map[]
        && nvmBegan == (cfg.nvmSize != cfg.defaultSize && flashInitOk && openOk)
        && code == (if !nvmBegan then DefaultFailInit else if critCode != DefaultOk then critCode else envCode)
      ensures code == DefaultFailStop ==> critCode == DefaultFailStop || envCode == DefaultFailStop
    {
      var acquired := ThreadLock();
      if !acquired {
        return DefaultLockHeld;
      }
      var began, maxValue := NvmMaxSize();
      if began {
        if cfg.nvmSize > maxValue {
          ThreadUnlock();
          return DefaultSizeTooBig;
        }
      } else {
        ThreadUnlock();
        return DefaultFailMaxSize;
      }
      var cleared := NvmClear(eraseOk);
      if !cleared {
        ThreadUnlock();
        return DefaultFailClear;
      }
      var stopped := NvmStop();
      if !stopped {
        // unreachable: nvmMaxSize succeeded, so the store was begun and nvmStop succeeds
        assert false;
      }
      ThreadUnlock();
      var startCode := NvmInit(cfg.nvmSize, flashInitOk, openOk);
      if startCode != NvmOk {
        return DefaultFailInit;
      }
      if critCode != DefaultOk {
        return critCode;
      }
      return envCode;
    }

    /** SET_NVS for an integer type: the typed setter, then the commit. */
    method WriteInt(ty: IntType, key: nat, value: int, setOk: bool, commitOk: bool) returns (ok: bool)
      requires InRange(ty, value)
      modifies this`threadLock, this`store
      ensures !old(nvmBegan) || old(threadLock) ==>
        !ok && threadLock == old(threadLock) && store == old(store)
      ensures old(nvmBegan) && !old(threadLock) ==>
        && !threadLock
        && ok == (setOk && commitOk)
        && store == if setOk then old(store)[Key(key) := IntEntry(ty, value)] else old(store)
    {
      if !nvmBegan {
        return false;
      }
      var acquired := ThreadLock();
      if !acquired {
        return false;
      }
      var keyStr := new UInt8[cfg.keyBytes + 1];
      KeyToChar(key, keyStr);
      if !setOk {
        ThreadUnlock();
        return false;
      }
      store := store[CString(keyStr[..]) := IntEntry(ty, value)];
      if !commitOk {
        ThreadUnlock();
        return false;
      }
      ThreadUnlock();
      return true;
    }

    /** nvmWriteBool: the boolean is stored as the byte 0 or 1. */
    method WriteBool(key: nat, value: bool, setOk: bool, commitOk: bool) returns (ok: bool)
      modifies this`threadLock, this`store
      ensures !old(nvmBegan) || old(threadLock) ==>
        !ok && threadLock == old(threadLock) && store == old(store)
      ensures old(nvmBegan) && !old(threadLock) ==>
        && !threadLock
        && ok == (setOk && commitOk)
        && store == if setOk then old(store)[Key(key) := IntEntry(U8, if value then 1 else 0)] else old(store)
    {
      ok := WriteInt(U8, key, if value then 1 else 0, setOk, commitOk);
    }

    /** Whether the store holds an integer of this type under the key string. */
    predicate HoldsInt(k: seq<UInt8>, ty: IntType)
      reads this
    {
      k in store && store[k].IntEntry? && store[k].ty == ty
    }

    /**
      GET_NVS: the typed getter fills the out value when it succeeds; the call
      still fails when defaults are refused and the value read is the default.
     */
    method GetNvs(ty: IntType, key: nat, canDefault: bool, defaultValue: int, getOk: bool)
      returns (ok: bool, value: Option<int>)
      modifies this`threadLock
      ensures !old(nvmBegan) || old(threadLock) ==> !ok && value == None && threadLock == old(threadLock)
      ensures old(nvmBegan) && !old(threadLock) ==>
        && !threadLock
        && value == (if getOk && HoldsInt(Key(key), ty) then Some(store[Key(key)].value) else None)
        && ok == (value.Some? && (canDefault || value.value != defaultValue))
    {
      if !nvmBegan {
        return false, None;
      }
      var acquired := ThreadLock();
      if !acquired {
        return false, None;
      }
      var keyStr := new UInt8[cfg.keyBytes + 1];
      KeyToChar(key, keyStr);
      var k := CString(keyStr[..]);
      if !(getOk && HoldsInt(k, ty)) {
        ThreadUnlock();
        return false, None;
      }
      value := Some(store[k].value);
      if !canDefault && value.value == defaultValue {
        ThreadUnlock();
        return false, value;
      }
      ThreadUnlock();
      return true, value;
    }

    /** nvmGetI8 ... nvmGetUI64: the default is DEFAULT_INT converted to the type. */
    method GetInt(ty: IntType, key: nat, canDefault: bool, getOk: bool) returns (ok: bool, value: Option<int>)
      modifies this`threadLock
      ensures !old(nvmBegan) || old(threadLock) ==> !ok && value == None && threadLock == old(threadLock)
      ensures old(nvmBegan) && !old(threadLock) ==>
        && !threadLock
        && value == (if getOk && HoldsInt(Key(key), ty) then Some(store[Key(key)].value) else None)
        && ok == (value.Some? && (canDefault || value.value != Cast(ty, cfg.defaultInt)))
    {
      ok, value := GetNvs(ty, key, canDefault, Cast(ty, cfg.defaultInt), getOk);
    }

    /** nvmGetBool: reads a byte, refused as a default when it equals DEFAULT_BOOL; nonzero reads as true. */
    method GetBool(key: nat, canDefault: bool, getOk: bool) returns (ok: bool, value: Option<bool>)
      modifies this`threadLock
      ensures !old(nvmBegan) || old(threadLock) ==> !ok && value == None && threadLock == old(threadLock)
      ensures old(nvmBegan) && !old(threadLock) ==>
        && !threadLock
        && value == (if getOk && HoldsInt(Key(key), U8) then Some(store[Key(key)].value != 0) else None)
        && ok == (value.Some? &&
                  (canDefault || store[Key(key)].value != (if cfg.defaultBool then 1 else 0)))
    {
      var raw;
      ok, raw := GetNvs(U8, key, canDefault, if cfg.defaultBool then 1 else 0, getOk);
      value := if raw.Some? then Some(raw.value != 0) else None;
    }

    /** The checks nvmWriteCharArray makes before it takes the lock. */
    predicate CharArrayRejected(valueLen: UInt8, maxLength: UInt8)
    {
      valueLen == 0 || valueLen > maxLength || valueLen == cfg.charLenError
    }

    /**
      Stores a string under the key; valueLen is the length charArraySize
      reports for it. The store keeps the C string: the bytes before the first NUL.
     */
    method WriteCharArray(key: nat, value: seq<UInt8>, maxLength: UInt8, valueLen: UInt8,
                          setOk: bool, commitOk: bool) returns (ok: bool)
      modifies this`threadLock, this`store
      ensures !old(nvmBegan) || CharArrayRejected(valueLen, maxLength) || old(threadLock) ==>
        !ok && threadLock == old(threadLock) && store == old(store)
      ensures old(nvmBegan) && !CharArrayRejected(valueLen, maxLength) && !old(threadLock) ==>
        && !threadLock
        && ok == (setOk && commitOk)
        && store == if setOk then old(store)[Key(key) := StrEntry(CString(value))] else old(store)
    {
      if !nvmBegan {
        return false;
      }
      if valueLen == 0 {
        return false;
      } else if valueLen > maxLength {
        return false;
      } else if valueLen == cfg.charLenError {
        return false;
      }
      var acquired := ThreadLock();
      if !acquired {
        return false;
      }
      var keyStr := new UInt8[cfg.keyBytes + 1];
      KeyToChar(key, keyStr);
      if !setOk {
        ThreadUnlock();
        return false;
      }
      store := store[CString(keyStr[..]) := StrEntry(CString(value))];
      if !commitOk {
        ThreadUnlock();
        return false;
      }
      ThreadUnlock();
      return true;
    }

    /** The size the store reports for a string entry: its bytes and the terminator. */
    function StoredSize(k: seq<UInt8>): nat
      reads this
      requires k in store && store[k].StrEntry?
    {
      |store[k].chars| + 1
    }

    /**
      Reads the string under the key into a buffer of maxLength bytes:
      first asks the store for the size, then reads.
     */
    method GetCharArray(key: nat, hasBuffer: bool, maxLength: UInt8, sizeOk: bool, readOk: bool)
      returns (ok: bool, value: Option<seq<UInt8>>)
      modifies this`threadLock
      ensures !old(nvmBegan) || !hasBuffer || maxLength == 0 || old(threadLock) ==>
        !ok && value == None && threadLock == old(threadLock)
      ensures old(nvmBegan) && hasBuffer && maxLength != 0 && !old(threadLock) ==>
        && !threadLock
        && ok == (sizeOk && Key(key) in store && store[Key(key)].StrEntry?
                  && StoredSize(Key(key)) <= maxLength && readOk)
        && value == (if ok then Some(store[Key(key)].chars) else None)
    {
      if !nvmBegan {
        return false, None;
      }
      if !hasBuffer {
        return false, None;
      }
      if maxLength == 0 {
        return false, None;
      }
      var acquired := ThreadLock();
      if !acquired {
        return false, None;
      }
      var keyStr := new UInt8[cfg.keyBytes + 1];
      KeyToChar(key, keyStr);
      var k := CString(keyStr[..]);
      if !(sizeOk && k in store && store[k].StrEntry?) {
        ThreadUnlock();
        return false, None;
      }
      var strSize := StoredSize(k);
      if strSize > maxLength {
        ThreadUnlock();
        return false, None;
      }
      if !readOk {
        ThreadUnlock();
        return false, None;
      }
      ThreadUnlock();
      return true, Some(store[k].chars);
    }
  }
}
