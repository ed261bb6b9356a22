/** The daily energy target `calculo_valor_energetico_total`
    (assets/fuzzy_module/calcular_vet.py:2-14): kilocalories per kilogram of
    body weight chosen by the objective (22 for cutting, 30 for maintenance,
    38 for bulking, nothing for any other value), times the weight. */
module Energy {

  /** The `match objetivo` table. */
  function KcalPerKg(objetivo: int): (k: real)
    ensures objetivo == 0 ==> k == 22.0
    ensures objetivo == 1 ==> k == 30.0
    ensures objetivo == 2 ==> k == 38.0
    ensures objetivo !in {0, 1, 2} ==> k == 0.0
  {
    match objetivo
    case 0 => 22.0
    case 1 => 30.0
    case 2 => 38.0
    case _ => 0.0
  }

  function Vet(objetivo: int, peso: real): (v: real)
    ensures objetivo == 0 ==> v == peso * 22.0
    ensures objetivo == 1 ==> v == peso * 30.0
    ensures objetivo == 2 ==> v == peso * 38.0
    ensures objetivo !in {0, 1, 2} ==> v == 0.0
  {
    peso * KcalPerKg(objetivo)
  }

  /** A 70 kg maintenance diet is 2100 kcal. */
  lemma VetExample()
    ensures Vet(1, 70.0) == 2100.0
  {
  }

  /** For a positive weight the energy grows strictly with the objective over
      0, 1, 2, is never negative, and is linear in the weight. */
  lemma VetMonotone(peso: real, a: int, b: int)
    requires peso > 0.0 && 0 <= a < b <= 2
    ensures 0.0 < Vet(a, peso) < Vet(b, peso)
  {
  }

  lemma VetLinear(objetivo: int, p: real, q: real, c: real)
    ensures Vet(objetivo, p + q) == Vet(objetivo, p) + Vet(objetivo, q)
    ensures Vet(objetivo, c * p) == c * Vet(objetivo, p)
  {
  }
}
