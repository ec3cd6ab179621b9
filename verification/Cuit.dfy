/** Argentine tax identifiers (CUIT): validation, generation from a document number, and what the check digit
    detects. */
module Cuit {
  import opened Common

  predicate EsDigito(c: char) {
    '0' <= c <= '9'
  }

  predicate EsEspacio(c: char) {
    c in {' ', '\t', '\n', '\r', '\U{000B}', '\U{000C}', '\U{00A0}', '\U{1680}', '\U{2028}', '\U{2029}',
          '\U{202F}', '\U{205F}', '\U{3000}', '\U{FEFF}'} || '\U{2000}' <= c <= '\U{200A}'
  }

  predicate SoloDigitos(s: string) {
    forall i :: 0 <= i < |s| ==> EsDigito(s[i])
  }

  function Digito(c: char): int {
    c as int - '0' as int
  }

  function Caracter(d: int): char
    requires 0 <= d <= 9
  {
    (d + '0' as int) as char
  }

  /** `cuit.replace(/[-\s]/g, '')`, and the same for dots in a document number. */
  function Quitar(s: string, marca: char): string {
    if s == "" then ""
    else if s[0] == marca || EsEspacio(s[0]) then Quitar(s[1..], marca)
    else [s[0]] + Quitar(s[1..], marca)
  }

  const MULTIPLICADORES: seq<int> := [5, 4, 3, 2, 7, 6, 5, 4, 3, 2]

  const TIPOS: seq<string> := ["20", "23", "24", "27", "30", "33", "34"]

  /** Prefixes in the order the generator tries them. */
  const PREFIJOS: seq<string> := ["20", "27", "23", "24", "30", "33", "34"]

  function SumaHasta(s: string, n: nat): int
    requires n <= 10 && n <= |s|
  {
    if n == 0 then 0 else SumaHasta(s, n - 1) + Digito(s[n - 1]) * MULTIPLICADORES[n - 1]
  }

  function Resto(s: string): (r: int)
    requires |s| >= 10
    ensures 0 <= r < 11
  {
    SumaHasta(s, 10) % 11
  }

  function DigitoDe(resto: int): (d: int)
    requires 0 <= resto < 11
    ensures 0 <= d <= 9
  {
    if resto == 0 then 0 else if resto == 1 then 9 else 11 - resto
  }

  method CalcularDigitoVerificador(s: string) returns (d: int)
    requires |s| >= 10
    ensures d == DigitoDe(Resto(s))
  {
    var suma := 0;
    for i := 0 to 10
      invariant suma == SumaHasta(s, i)
    {
      suma := suma + Digito(s[i]) * MULTIPLICADORES[i];
    }
    var resto := suma % 11;
    d := if resto == 0 then 0 else if resto == 1 then 9 else 11 - resto;
  }

  datatype Validacion =
    | Valido(formateado: string)
    | LargoIncorrecto
    | NoNumerico
    | TipoInvalido
    | DigitoIncorrecto(esperado: int, recibido: int)

  function Formatear(s: string): string
    requires |s| == 11
  {
    s[..2] + "-" + s[2..10] + "-" + s[10..]
  }

  function Validar(cuit: string): Validacion {
    var s := Quitar(cuit, '-');
    if |s| != 11 then LargoIncorrecto
    else if !SoloDigitos(s) then NoNumerico
    else if s[..2] !in TIPOS then TipoInvalido
    else if DigitoDe(Resto(s)) != Digito(s[10]) then DigitoIncorrecto(DigitoDe(Resto(s)), Digito(s[10]))
    else Valido(Formatear(s))
  }

  /** The last digit brings the weighted sum to a multiple of eleven; where only ten would, it is 9. */
  predicate VerificadorCorrecto(s: string)
    requires |s| == 11
  {
    if Resto(s) == 1 then Digito(s[10]) == 9 else (SumaHasta(s, 10) + Digito(s[10])) % 11 == 0
  }

  lemma {:induction false} DigitoCompleta(s: string)
    requires |s| == 11 && SoloDigitos(s)
    ensures DigitoDe(Resto(s)) == Digito(s[10]) <==> VerificadorCorrecto(s)
  {
    Complemento(SumaHasta(s, 10), Digito(s[10]));
  }

  lemma {:induction false} Complemento(suma: int, d: int)
    requires 0 <= d <= 9
    ensures DigitoDe(suma % 11) == d <==> if suma % 11 == 1 then d == 9 else (suma + d) % 11 == 0
  {
    var r, k := suma % 11, suma / 11;
    assert suma + d == 11 * k + (r + d);
    if r + d == 11 { assert suma + d == 11 * (k + 1); }
  }

  method ValidarCuit(cuit: string) returns (v: Validacion)
    ensures v == Validar(cuit)
    ensures var s := Quitar(cuit, '-');
            v.Valido? <==> |s| == 11 && SoloDigitos(s) && s[..2] in TIPOS && VerificadorCorrecto(s)
  {
    var s := Quitar(cuit, '-');
    if |s| != 11 { return LargoIncorrecto; }
    if !SoloDigitos(s) { return NoNumerico; }
    if s[..2] !in TIPOS { return TipoInvalido; }
    DigitoCompleta(s);
    var calculado := CalcularDigitoVerificador(s);
    if calculado != Digito(s[10]) { return DigitoIncorrecto(calculado, Digito(s[10])); }
    v := Valido(Formatear(s));
  }

  // ---------- generation ----------

  /** Seven or eight digits, padded to eight; None for anything else. */
  function Documento(documento: string): Option<string> {
    var s := Quitar(documento, '.');
    if !SoloDigitos(s) then None
    else if |s| == 8 then Some(s)
    else if |s| == 7 then Some("0" + s)
    else None
  }

  function ConVerificador(prefijo: string, doc: string): string
    requires |prefijo| == 2 && |doc| == 8
  {
    prefijo + "-" + doc + "-" + [Caracter(DigitoDe(Resto(prefijo + doc)))]
  }

  method GenerarCuits(documento: string) returns (r: Option<seq<string>>)
    ensures r.Some? <==> Documento(documento).Some?
    ensures r.Some? ==>
              && |r.value| == |PREFIJOS|
              && forall i :: 0 <= i < |PREFIJOS| ==>
                   r.value[i] == ConVerificador(PREFIJOS[i], Documento(documento).value)
  {
    var d := Documento(documento);
    if d.None? { return None; }
    var doc := d.value;
    var cuits := [];
    for i := 0 to |PREFIJOS|
      invariant |cuits| == i
      invariant forall j :: 0 <= j < i ==> cuits[j] == ConVerificador(PREFIJOS[j], doc)
    {
      var verificador := CalcularDigitoVerificador(PREFIJOS[i] + doc);
      cuits := cuits + [PREFIJOS[i] + "-" + doc + "-" + [Caracter(verificador)]];
    }
    r := Some(cuits);
  }

  lemma {:induction false} QuitarConcat(s: string, t: string, marca: char)
    ensures Quitar(s + t, marca) == Quitar(s, marca) + Quitar(t, marca)
  {
    if s == "" {
      assert s + t == t;
    } else {
      assert (s + t)[1..] == s[1..] + t;
      QuitarConcat(s[1..], t, marca);
    }
  }

  lemma {:induction false} QuitarNada(s: string, marca: char)
    requires SoloDigitos(s) && !EsDigito(marca)
    ensures Quitar(s, marca) == s
  {
    if s != "" { QuitarNada(s[1..], marca); }
  }

  /** Formatting and cleaning again gives the eleven digits back. */
  lemma {:induction false} FormatoIdaYVuelta(s: string)
    requires |s| == 11 && SoloDigitos(s)
    ensures Quitar(Formatear(s), '-') == s
  {
    QuitarConcat(s[..2] + "-" + s[2..10] + "-", s[10..], '-');
    QuitarConcat(s[..2] + "-" + s[2..10], "-", '-');
    QuitarConcat(s[..2] + "-", s[2..10], '-');
    QuitarConcat(s[..2], "-", '-');
    QuitarNada(s[..2], '-');
    QuitarNada(s[2..10], '-');
    QuitarNada(s[10..], '-');
    assert Quitar("-", '-') == "";
    assert s[..2] + s[2..10] + s[10..] == s;
  }

  /** What validation returns for a valid CUIT validates again and formats to itself. */
  lemma {:induction false} FormatoEstable(cuit: string)
    requires Validar(cuit).Valido?
    ensures Validar(Validar(cuit).formateado) == Validar(cuit)
  {
    FormatoIdaYVuelta(Quitar(cuit, '-'));
  }

  lemma {:induction false} SumaDePrefijo(s: string, t: string, n: nat)
    requires n <= 10 && n <= |s| && n <= |t|
    requires forall i :: 0 <= i < n ==> s[i] == t[i]
    ensures SumaHasta(s, n) == SumaHasta(t, n)
  {
    if n > 0 { SumaDePrefijo(s, t, n - 1); }
  }

  /** Every CUIT generated from a document validates and formats to itself. */
  lemma {:induction false} GeneradoEsValido(documento: string, i: nat)
    requires Documento(documento).Some? && i < |PREFIJOS|
    ensures var cuit := ConVerificador(PREFIJOS[i], Documento(documento).value);
            Validar(cuit) == Valido(cuit)
  {
    var prefijo, doc := PREFIJOS[i], Documento(documento).value;
    var d := DigitoDe(Resto(prefijo + doc));
    var s := prefijo + doc + [Caracter(d)];
    assert SoloDigitos(doc) && SoloDigitos(prefijo);
    assert Formatear(s) == ConVerificador(prefijo, doc);
    FormatoIdaYVuelta(s);
    SumaDePrefijo(s, prefijo + doc, 10);
    assert s[..2] == prefijo && prefijo in TIPOS;
  }

  // ---------- error detection ----------

  /** Two codes that differ in digit i only. */
  predicate DifierenEn(s: string, t: string, i: nat) {
    && |s| == |t| >= 10 && i < 10 && SoloDigitos(s) && SoloDigitos(t)
    && s[i] != t[i] && forall j :: 0 <= j < |s| && j != i ==> s[j] == t[j]
  }

  /** Digits i and i + 1 exchanged, and not equal. */
  predicate Transpuestos(s: string, t: string, i: nat) {
    && |s| == |t| >= 10 && i < 9 && SoloDigitos(s) && SoloDigitos(t)
    && s[i] != s[i + 1] && t[i] == s[i + 1] && t[i + 1] == s[i]
    && forall j :: 0 <= j < |s| && j != i && j != i + 1 ==> s[j] == t[j]
  }

  lemma {:induction false} SumaDeSufijo(s: string, t: string, k: nat, n: nat)
    requires k <= n <= 10 && n <= |s| && n <= |t|
    requires forall i :: k <= i < n ==> s[i] == t[i]
    ensures SumaHasta(s, n) - SumaHasta(t, n) == SumaHasta(s, k) - SumaHasta(t, k)
    decreases n
  {
    if n > k { SumaDeSufijo(s, t, k, n - 1); }
  }

  /** Weights and digit differences have no factor 11, so their product is not a multiple of it. */
  lemma {:induction false} PesoSinOnce(w: int, d: int)
    requires w in {1, 2, 3, 4, 5, 6, 7, -5} && d != 0 && -9 <= d <= 9
    ensures (w * d) % 11 != 0
  {
    if w == 1 { } else if w == 2 { } else if w == 3 { } else if w == 4 { } else if w == 5 { }
    else if w == 6 { } else if w == 7 { } else { }
  }

  /** Changing any one of the first ten digits changes the remainder. */
  lemma {:induction false} CambioDetectado(s: string, t: string, i: nat)
    requires DifierenEn(s, t, i)
    ensures Resto(s) != Resto(t)
  {
    SumaDePrefijo(s, t, i);
    SumaDeSufijo(s, t, i + 1, 10);
    var w, d := MULTIPLICADORES[i], Digito(s[i]) - Digito(t[i]);
    assert SumaHasta(s, 10) - SumaHasta(t, 10) == Digito(s[i]) * w - Digito(t[i]) * w == w * d;
    assert w in {2, 3, 4, 5, 6, 7};
    PesoSinOnce(w, d);
    RestosDistintos(SumaHasta(s, 10), SumaHasta(t, 10));
  }

  lemma {:induction false} RestosDistintos(a: int, b: int)
    requires (a - b) % 11 != 0
    ensures a % 11 != b % 11
  {
  }

  /** So does exchanging two neighbouring digits that are not equal. */
  lemma {:induction false} TransposicionDetectada(s: string, t: string, i: nat)
    requires Transpuestos(s, t, i)
    ensures Resto(s) != Resto(t)
  {
    SumaDePrefijo(s, t, i);
    SumaDeSufijo(s, t, i + 2, 10);
    var u, v := MULTIPLICADORES[i], MULTIPLICADORES[i + 1];
    var a, b := Digito(s[i]), Digito(t[i]);
    DosPasos(s, i);
    DosPasos(t, i);
    Intercambio(a, b, u, v);
    assert u - v in {1, -5};
    PesoSinOnce(u - v, a - b);
    RestosDistintos(SumaHasta(s, 10), SumaHasta(t, 10));
  }

  lemma {:induction false} DosPasos(s: string, i: nat)
    requires i < 9 && |s| >= 10
    ensures SumaHasta(s, i + 2) ==
            SumaHasta(s, i) + Digito(s[i]) * MULTIPLICADORES[i] + Digito(s[i + 1]) * MULTIPLICADORES[i + 1]
  {
  }

  lemma {:induction false} Intercambio(a: int, b: int, u: int, v: int)
    ensures (a * u + b * v) - (b * u + a * v) == (u - v) * (a - b)
  {
  }

  /** Only the remainders 1 and 2 share a check digit: a code with one wrong or two exchanged digits passes the
      check-digit comparison exactly when the two remainders are 1 and 2. */
  lemma {:induction false} ErrorNoDetectado(s: string, t: string, i: nat)
    requires DifierenEn(s, t, i) || Transpuestos(s, t, i)
    ensures DigitoDe(Resto(s)) == DigitoDe(Resto(t)) <==> {Resto(s), Resto(t)} == {1, 2}
  {
    if DifierenEn(s, t, i) { CambioDetectado(s, t, i); } else { TransposicionDetectada(s, t, i); }
    var a, b := Resto(s), Resto(t);
    if {a, b} == {1, 2} { assert a in {1, 2} && b in {1, 2}; }
    if a == 1 && b == 2 { assert {a, b} == {1, 2}; }
    if a == 2 && b == 1 { assert {a, b} == {1, 2}; }
  }

  // ---------- digit by digit ----------

  /** The weighted sum, weight by weight. */
  lemma {:induction false} SumaPonderada(s: string)
    requires |s| >= 10
    ensures SumaHasta(s, 10) ==
            5 * Digito(s[0]) + 4 * Digito(s[1]) + 3 * Digito(s[2]) + 2 * Digito(s[3]) + 7 * Digito(s[4]) +
            6 * Digito(s[5]) + 5 * Digito(s[6]) + 4 * Digito(s[7]) + 3 * Digito(s[8]) + 2 * Digito(s[9])
  {
    DosPasos(s, 0);
    DosPasos(s, 2);
    DosPasos(s, 4);
    DosPasos(s, 6);
    DosPasos(s, 8);
  }

  /** Cleaning takes out the mark and every space, and nothing else, in order. */
  lemma {:induction false} QuitarPorPartes(s: string, t: string, marca: char, c: char)
    ensures Quitar(s + t, marca) == Quitar(s, marca) + Quitar(t, marca)
    ensures Quitar([c], marca) == if c == marca || EsEspacio(c) then "" else [c]
  {
    QuitarConcat(s, t, marca);
    assert Quitar([c][1..], marca) == "";
  }

  /** The code of a document of eight digits carries them as they are, one of seven with a zero before; dots and spaces
      among them do not matter. */
  lemma {:induction false} DigitosDelDocumento(documento: string, digitos: string)
    requires Quitar(documento, '.') == digitos && SoloDigitos(digitos)
    ensures |digitos| == 8 ==> Documento(documento) == Some(digitos)
    ensures |digitos| == 7 ==> Documento(documento) == Some("0" + digitos)
    ensures |digitos| != 7 && |digitos| != 8 ==> Documento(documento) == None
  {
  }

  /** A generated code reads: the prefix, the document, and a digit that brings the weighted sum to a multiple of
      eleven, each behind its dash. */
  lemma {:induction false} CodigoGenerado(documento: string, i: nat)
    requires Documento(documento).Some? && i < |PREFIJOS|
    ensures PREFIJOS == ["20", "27", "23", "24", "30", "33", "34"]
    ensures var cuit, doc := ConVerificador(PREFIJOS[i], Documento(documento).value), Documento(documento).value;
            && |doc| == 8 && SoloDigitos(doc) && |cuit| == 13
            && cuit[..2] == PREFIJOS[i] && cuit[2] == '-' && cuit[3..11] == doc && cuit[11] == '-'
            && EsDigito(cuit[12]) && VerificadorCorrecto(PREFIJOS[i] + doc + [cuit[12]])
  {
    var doc := Documento(documento).value;
    var d := DigitoDe(Resto(PREFIJOS[i] + doc));
    var s := PREFIJOS[i] + doc + [Caracter(d)];
    assert SoloDigitos(PREFIJOS[i]);
    SumaDePrefijo(s, PREFIJOS[i] + doc, 10);
    DigitoCompleta(s);
  }

  /** The kinds of taxpayer a code may start with. */
  lemma {:induction false} TiposAdmitidos(cuit: string)
    requires Validar(cuit).Valido?
    ensures var s := Quitar(cuit, '-'); s[..2] in ["20", "23", "24", "27", "30", "33", "34"]
  {
  }
}
