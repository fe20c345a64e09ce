/** The processing status indicator: maps the upload status and progress to
    what the card shows, and shows nothing while idle. */
module ProcessingStatus {
  import opened Js

  datatype Status = Idle | Processing | Completed | Error

  /** The glyphs of the status icon. */
  datatype Glyph = CheckCircle | Clock | XCircle

  datatype Icon = Icon(glyph: Glyph, badgeClass: string, iconClass: string)

  /** What the card renders. */
  datatype View = View(icon: Icon, text: string, textClass: string, value: int, barClass: string)

  function StatusIcon(s: Status): (icon: Icon)
    ensures icon.glyph == CheckCircle <==> s == Completed
    ensures icon.glyph == XCircle <==> s == Error
  {
    match s
    case Completed => Icon(CheckCircle, CompletedBadge, "h-5 w-5 text-green-500")
    case Processing => Icon(Clock, ProcessingBadge, "h-5 w-5 text-primary animate-pulse")
    case Error => Icon(XCircle, ErrorBadge, "h-5 w-5 text-red-500")
    case Idle => Icon(Clock, IdleBadge, "h-5 w-5 text-muted-foreground")
  }

  const CompletedBadge: string := "bg-green-100 dark:bg-green-900/30 rounded-full p-1.5 flex items-center justify-center"
  const ProcessingBadge: string := "bg-primary/10 rounded-full p-1.5 flex items-center justify-center"
  const ErrorBadge: string := "bg-red-100 dark:bg-red-900/30 rounded-full p-1.5 flex items-center justify-center"
  const IdleBadge: string := "bg-gray-100 dark:bg-gray-800 rounded-full p-1.5 flex items-center justify-center"

  /** The label after `処理状態:`; the default one belongs to idle alone. */
  function StatusText(s: Status): (t: string)
    ensures t == "待機中" <==> s == Idle
    ensures t == "完了" <==> s == Completed
    ensures t == "処理中" <==> s == Processing
    ensures t == "エラー" <==> s == Error
  {
    match s
    case Completed => "完了"
    case Processing => "処理中"
    case Error => "エラー"
    case Idle => "待機中"
  }

  /** The bar is full once the upload has finished, successfully or not. */
  function ProgressValue(s: Status, progress: int): (v: int)
    ensures s == Completed || s == Error ==> v == 100
    ensures s == Processing || s == Idle ==> v == progress
  {
    if s == Completed then 100
    else if s == Error then 100
    else progress
  }

  /** Red exactly for an error, green exactly on completion, and a faded
      primary colour exactly when idle. */
  function ProgressColor(s: Status): (c: string)
    ensures c == "bg-red-500" <==> s == Error
    ensures c == "bg-green-500" <==> s == Completed
    ensures c == "bg-primary" <==> s == Processing
    ensures c == "bg-primary/30" <==> s == Idle
  {
    match s
    case Error => "bg-red-500"
    case Completed => "bg-green-500"
    case Processing => "bg-primary"
    case Idle => "bg-primary/30"
  }

  const Emphasis: string := " font-medium"

  /** Every status but idle is set in medium weight; idle is muted. */
  function StatusClass(s: Status): (c: string)
    ensures s == Idle <==> c == "text-muted-foreground"
    ensures s != Idle ==> |c| > |Emphasis| && c[|c| - |Emphasis|..] == Emphasis
  {
    match s
    case Completed => Emphasized("text-green-600 dark:text-green-400")
    case Processing => Emphasized("text-primary")
    case Error => Emphasized("text-red-600 dark:text-red-400")
    case Idle => "text-muted-foreground"
  }

  function Emphasized(colour: string): (c: string)
    requires colour != ""
    ensures |c| > |Emphasis| && c[|c| - |Emphasis|..] == Emphasis
    ensures c != "text-muted-foreground"
  {
    assert (colour + Emphasis)[|colour|..] == Emphasis;
    colour + Emphasis
  }

  /** The text, the colour and the text class each tell the four statuses apart. */
  lemma StatusPresentationDistinct(a: Status, b: Status)
    ensures StatusText(a) == StatusText(b) ==> a == b
    ensures ProgressColor(a) == ProgressColor(b) ==> a == b
    ensures StatusClass(a) == StatusClass(b) ==> a == b
  {
  }

  /** The component with its defaults: a missing status is idle, a missing
      progress is 0. It renders nothing exactly when the status is idle. */
  function Render(status: Option<Status>, progress: Option<int>): (v: Option<View>)
    ensures v.None? <==> status.None? || status.value == Idle
    ensures v.Some? ==>
      && v.value.text == StatusText(status.value)
      && v.value.value == ProgressValue(status.value, if progress.Some? then progress.value else 0)
      && v.value.barClass == "h-3 rounded-full " + ProgressColor(status.value)
  {
    var s := if status.Some? then status.value else Idle;
    var p := if progress.Some? then progress.value else 0;
    if s == Idle then None
    else Some(View(StatusIcon(s), StatusText(s), StatusClass(s), ProgressValue(s, p), "h-3 rounded-full " + ProgressColor(s)))
  }
}
