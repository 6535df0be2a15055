/** The enums of `@/api/enum`, used by the template pages. Their declaration
    is not part of this model; the member lists come from the label tables in
    src/api/global.tsx, which are total records over each enum. */
module ApiEnum {
  import opened Js

  /** `Status`: the three members of the `StatusData` record. */
  datatype Status = StatusAll | StatusEnable | StatusDisable

  /** The numeric value of a `Status` member. The pages store it in numeric
      fields (`status: number`) and the detail modal writes `1` for an enabled
      template and `2` otherwise, so `StatusEnable` is 1 and `StatusDisable` is
      2; `StatusAll`, the "all" choice of a filter, is 0. */
  function StatusValue(s: Status): JsValue {
    match s
    case StatusAll => Num(0)
    case StatusEnable => Num(1)
    case StatusDisable => Num(2)
  }

  /** Only the "all" choice is falsy, and the values tell the members apart. */
  lemma StatusValueFacts(s: Status, t: Status)
    ensures StatusValue(s).Num?
    ensures Truthy(StatusValue(s)) <==> s != StatusAll
    ensures StatusValue(s) == StatusValue(t) <==> s == t
  {
  }

  /** `AlarmSendType`: the six members of the `AlarmSendTypeData` record. */
  datatype AlarmSendType =
    | StrategyTypeUnknown
    | AlarmSendTypeEmail
    | AlarmSendTypeDingTalk
    | AlarmSendTypeWeChat
    | AlarmSendTypeFeiShu
    | AlarmSendTypeCustom

  /** The runtime value of an `AlarmSendType` member, which is not part of
      this model: a value per member, told apart by the member's name. */
  function AlarmSendTypeValue(t: AlarmSendType): JsValue {
    match t
    case StrategyTypeUnknown => Enum("StrategyTypeUnknown")
    case AlarmSendTypeEmail => Enum("AlarmSendTypeEmail")
    case AlarmSendTypeDingTalk => Enum("AlarmSendTypeDingTalk")
    case AlarmSendTypeWeChat => Enum("AlarmSendTypeWeChat")
    case AlarmSendTypeFeiShu => Enum("AlarmSendTypeFeiShu")
    case AlarmSendTypeCustom => Enum("AlarmSendTypeCustom")
  }
}
