/** Threshold ratings of a spirit's strength, intelligence and body-mass index. */
module SpiritStatus {

  /** A rating label with its description text. */
  datatype Rating = Rating(level: string, description: string)

  /** Strength rating: below 30, below 60, below 90, and 90 or more. */
  function StrengthLevel(strength: real): (r: Rating)
    ensures r.level == "弱小" <==> strength < 30.0
    ensures r.level == "普通" <==> 30.0 <= strength < 60.0
    ensures r.level == "强壮" <==> 60.0 <= strength < 90.0
    ensures r.level == "超强" <==> 90.0 <= strength
  {
    if strength < 30.0 then Rating("弱小", "需要多补充蛋白质和钙质")
    else if strength < 60.0 then Rating("普通", "可以适当增加营养摄入")
    else if strength < 90.0 then Rating("强壮", "继续保持良好的饮食习惯")
    else Rating("超强", "营养摄入非常均衡")
  }

  /** Intelligence rating: below 30, below 60, below 90, and 90 or more. */
  function IqLevel(iq: real): (r: Rating)
    ensures r.level == "迟钝" <==> iq < 30.0
    ensures r.level == "普通" <==> 30.0 <= iq < 60.0
    ensures r.level == "聪明" <==> 60.0 <= iq < 90.0
    ensures r.level == "天才" <==> 90.0 <= iq
  {
    if iq < 30.0 then Rating("迟钝", "需要补充维生素B族和DHA")
    else if iq < 60.0 then Rating("普通", "可以多吃一些补脑食物")
    else if iq < 90.0 then Rating("聪明", "智力发育良好")
    else Rating("天才", "营养摄入帮助了大脑发育")
  }

  datatype Bmi = Bmi(value: real, status: string)

  /**
   * The body-mass index of a height in centimetres and a weight in
   * kilograms, with its band: under 18.5, under 24, under 28, 28 or more.
   */
  function CalculateBmi(height: real, weight: real): (b: Bmi)
    requires height != 0.0
    ensures b.value * (height / 100.0) * (height / 100.0) == weight
    ensures b.status == "偏瘦" <==> b.value < 18.5
    ensures b.status == "正常" <==> 18.5 <= b.value < 24.0
    ensures b.status == "偏胖" <==> 24.0 <= b.value < 28.0
    ensures b.status == "肥胖" <==> 28.0 <= b.value
  {
    var heightM := height / 100.0;
    var bmi := weight / (heightM * heightM);
    assert bmi * (heightM * heightM) == weight;
    var status :=
      if bmi < 18.5 then "偏瘦"
      else if bmi < 24.0 then "正常"
      else if bmi < 28.0 then "偏胖"
      else "肥胖";
    Bmi(bmi, status)
  }
}
