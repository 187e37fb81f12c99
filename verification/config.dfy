/** Start-up configuration of the rigctl client module: the rigctl server
    port and the panadapter IF frequency, with the defaults the module uses
    when the configuration store holds no value. Frequencies are integer Hz. */
module RigConfig {

  datatype Option<T> = None | Some(value: T)

  const MinPort: int := 1
  const MaxPort: int := 65535
  /** Port used when the configuration has no "port" entry. */
  const DefaultPort: int := 4532
  /** Panadapter IF used when the configuration has no "ifFreq" entry. */
  const DefaultIfFreq: int := 8830000

  /** Distance between two integers. */
  function Dist(a: int, b: int): nat
  {
    if a < b then b - a else a - b
  }

  predicate ValidPort(p: int)
  {
    MinPort <= p <= MaxPort
  }

  /** `std::clamp(v, lo, hi)`: the point of [lo, hi] nearest to v. */
  function Clamp(v: int, lo: int, hi: int): (r: int)
    requires lo <= hi
    ensures lo <= r <= hi
    ensures r == v <==> lo <= v <= hi
    ensures forall x :: lo <= x <= hi ==> Dist(r, v) <= Dist(x, v)
  {
    if v < lo then lo else if hi < v then hi else v
  }

  const TwoTo32: int := 0x1_0000_0000
  const MinInt32: int := -0x8000_0000
  const MaxInt32: int := 0x7FFF_FFFF

  /** Conversion of a stored integer to the C++ `int` field: two's-complement
      wrap-around to 32 bits. */
  function ToInt32(v: int): (r: int)
    ensures MinInt32 <= r <= MaxInt32
    ensures (r - v) % TwoTo32 == 0
    ensures MinInt32 <= v <= MaxInt32 ==> r == v
  {
    var m := v % TwoTo32;
    if m <= MaxInt32 then m else m - TwoTo32
  }

  /** The values the configuration store may hold for this module instance. */
  datatype Stored = Stored(port: Option<int>, ifFreq: Option<int>)

  /** The values the module starts with. */
  datatype Config = Config(port: int, ifFreq: int)

  /** Loading the configuration: a stored port is converted to a 32-bit
      `int` and then clamped into the valid port range, a stored IF is taken
      as is, missing entries keep their defaults. */
  function Load(st: Stored): (c: Config)
    ensures ValidPort(c.port)
    ensures st.port.None? ==> c.port == DefaultPort
    ensures st.port.Some? ==> (c.port == st.port.value <==> ValidPort(st.port.value))
    ensures st.port.Some? ==> forall p :: ValidPort(p) ==> Dist(c.port, ToInt32(st.port.value)) <= Dist(p, ToInt32(st.port.value))
    ensures st.port.Some? && MinInt32 <= st.port.value <= MaxInt32 ==>
      forall p :: ValidPort(p) ==> Dist(c.port, st.port.value) <= Dist(p, st.port.value)
    ensures st.ifFreq.Some? ==> c.ifFreq == st.ifFreq.value
    ensures st.ifFreq.None? ==> c.ifFreq == DefaultIfFreq
  {
    var port := if st.port.Some? then Clamp(ToInt32(st.port.value), MinPort, MaxPort) else DefaultPort;
    var ifFreq := if st.ifFreq.Some? then st.ifFreq.value else DefaultIfFreq;
    Config(port, ifFreq)
  }

  /** A stored port beyond 32 bits wraps before it is clamped: 2^32 + 80
      loads as port 80, not as the nearest valid port 65535. */
  lemma LoadWrapsBeforeClamp()
    ensures Load(Stored(Some(TwoTo32 + 80), None)).port == 80
  {
  }

  /** Loading is stable: storing what was loaded and loading again gives the
      same configuration. */
  lemma LoadStable(st: Stored)
    ensures Load(Stored(Some(Load(st).port), Some(Load(st).ifFreq))) == Load(st)
  {
  }
}
