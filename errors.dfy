/** The errors the core reports, one constructor per `fmt.Errorf` message
    (the Chinese text itself is not modelled, only which message and which
    arguments it carries). Causes that come from code outside the model
    (pcap, exec, os, the JSON decoder, the automation helper) are kept as
    their message strings. */
module Errors {

  import opened Wrappers

  /** The four external paths the one-click flow needs. */
  datatype Tool = Companion | ObsLaunch | ObsConfig | Script

  /** The labels of the companion's controls the automation helper clicks. */
  datatype Control = StartLiveButton | CloseButton

  datatype Error =
    // capture/capture.go
    | DeviceListFailed(cause: string)        // error of pcap.FindAllDevs, passed through
    | NoUsableInterface                      // "未找到可用的网络接口"
    | CaptureError(inner: Error)             // "抓包过程中发生错误: %v"
    // config/settings.go (WriteOBSConfig)
    | ConfigFileMissing(path: string)        // "配置文件不存在: %s"
    | ConfigReadFailed(cause: string)        // "读取配置文件失败: %v"
    | ConfigParseFailed(cause: string)       // "解析JSON配置文件失败: %v"
    | SettingsNotObject                      // "配置文件格式错误: settings字段不是对象"
    | ConfigWriteFailed(cause: string)       // "写入配置文件失败: %v"
    // path checks in validateAutoStartConfig, startOBS, startLiveCompanion
    | PathNotConfigured(tool: Tool)          // "请先在设置中配置…路径"
    | FileNotFound(tool: Tool, path: string) // "…文件不存在：%s"
    | ObsRunningBeforeAutoStart              // "OBS已在运行，请先关闭后再使用一键开播"
    // startOBS / startLiveCompanion
    | ObsFocusFailed(focusError: Option<Error>) // "检测到OBS已经正在运行！\n置顶OBS窗口失败: %v"
    | ObsAlreadyRunning                      // "检测到OBS已经正在运行！\n请勿重复运行OBS(已置顶窗口)"
    | LaunchFailed(tool: Tool, cause: string) // "启动OBS失败：%v" / "启动直播伴侣失败：%v"
    // importOBSConfigForAuto and autoStart
    | StreamInfoIncomplete                   // "推流信息不完整"
    | ObsRunningDuringImport                 // "OBS正在运行，请先关闭OBS后再导入配置"
    | ImportFailed(inner: Error)             // "导入OBS配置失败：%v"
    | StreamInfoTimeout                      // "获取推流信息超时，…"
    // simulateClickStartLive / closeLiveCompanionForAuto
    | CompanionFocusFailed(focusError: Option<Error>) // "置顶直播伴侣窗口失败: %v"
    | LocateToolFailed(control: Control, cause: string) // "获取…按钮位置失败：%v" (helper did not run)
    | LocateRejected(control: Control, detail: string)  // "获取…按钮位置失败：%s" (result.Success false)
    | ClickFailed(control: Control, inner: Error)       // "模拟点击…按钮失败：%v"
    // lkit/lkit.go, lkit/win_api.go (BringWindowToFront)
    | EmptyWindowTitle                       // "窗口标题不能为空"
    | EnumWindowsFailed                      // "枚举窗口失败"
    | WindowNotFound(title: string)          // "未找到包含标题 '%s' 的可见窗口"
    | ForegroundFailed(foundTitle: string)   // "设置窗口到前台失败: %v (窗口: %s)"
    // lkit/mouse_click.go
    | NegativeCoordinates(x: int, y: int)    // "坐标不能为负数: x=%d, y=%d"
    | CursorMoveFailed                       // "移动鼠标失败: %v"
    | UnsupportedButton(button: string)      // "不支持的鼠标按钮类型: %s …"
    | MouseDownFailed                        // "发送鼠标按下事件失败: %v"
    | MouseUpFailed                          // "发送鼠标释放事件失败: %v"
}
