/**
 * The app's two display languages and every string helper of
 * LocalizationManager.swift: the key-to-English dictionary, month and year
 * formatting, and the two report titles.  Chinese text is the lookup key, so
 * Simplified Chinese is the identity translation.
 */
module Localization {
  import opened Common

  datatype Language = ZhHans | En

  /** The enum's raw values, which are what the app persists. */
  function RawValue(lang: Language): string {
    match lang
    case ZhHans => "zh-Hans"
    case En => "en"
  }

  /** `Language(rawValue:)`: only the two raw values name a language. */
  function FromRawValue(s: string): (r: Option<Language>)
    ensures r.Some? ==> RawValue(r.value) == s
  {
    if s == "zh-Hans" then Some(ZhHans) else if s == "en" then Some(En) else None
  }

  lemma RawValueRoundTrip(lang: Language)
    ensures FromRawValue(RawValue(lang)) == Some(lang)
  {
  }

  /** The persisted setting key written by `language`'s `didSet`. */
  const LanguageKey: string := "appLanguage"

  /**
   * `init()`: the saved setting when it is a known raw value, otherwise
   * Simplified Chinese.  A non-default language is chosen only when it is
   * exactly what was saved.
   */
  function InitialLanguage(saved: Option<string>): (r: Language)
    ensures r == ZhHans || (saved.Some? && saved.value == RawValue(r))
    ensures saved.None? ==> r == ZhHans
  {
    if saved.Some? && FromRawValue(saved.value).Some? then FromRawValue(saved.value).value else ZhHans
  }

  /** Choosing a language (which saves its raw value) and relaunching restores that language. */
  lemma PersistedLanguageRestored(lang: Language)
    ensures InitialLanguage(Some(RawValue(lang))) == lang
  {
    RawValueRoundTrip(lang);
  }

  /** The key-to-English dictionary. */
  const Translations: map<string, string> := map[
      "资产" := "Assets",
      "账单" := "Bills",
      "我的资产" := "My Assets",
      "总资产 (小金库)" := "Total Net Worth",
      "生成 AI 理财建议" := "Generate AI Advisor",
      "AI 理财建议" := "AI Financial Advisor",
      "AI 正在分析..." := "AI analyzing...",
      "分析失败" := "Analysis failed",
      "资产明细" := "Asset Details",
      "暂无资产" := "No assets yet",
      "删除该汇总" := "Delete portfolio",
      "新建资产 (如:招商银行)" := "New Asset (e.g., Chase Bank)",
      "新建汇总 (如: 汇总渠道)" := "New Portfolio (e.g., Summary Channel)",
      "新建资产" := "New Asset",
      "编辑资产" := "Edit Asset",
      "保存" := "Save",
      "基础信息" := "Basic Info",
      "名称 (如: 招商银行)" := "Name (e.g., Chase Bank)",
      "本金" := "Principal",
      "收益设置 (可选)" := "Yield Settings (Optional)",
      "年化收益率 (%)" := "APY (%)",
      "设置后，资产金额将根据时间自动每日增加。" := "Value increases daily based on time.",
      "删除" := "Delete",
      "新建汇总" := "New Portfolio",
      "汇总名称" := "Portfolio Name",
      "勾选包含的资产" := "Select Assets",
      "创建" := "Create",
      "含收益" := "Gain",
      "年化" := "APY",
      "天" := "day",
      "无数据" := "No Data",
      "账单流水" := "Transactions",
      "年度汇总" := "Annual Report",
      "年份" := "Year",
      "月 无数据" := " Month - No Data",
      "全选" := "Select All",
      "本月统计" := "Monthly Stats",
      "完成" := "Done",
      "选择" := "Select",
      "记一笔" := "Add Transaction",
      "导入表格" := "Import CSV",
      "编辑记录" := "Edit Transaction",
      "取消" := "Cancel",
      "例如：刚才打车花了30元" := "e.g., Taxi $30 just now",
      "使用 DeepSeek 自动识别" := "Powered by DeepSeek AI",
      "使用 OpenAI 自动识别" := "Powered by OpenAI",
      "使用 Gemini 自动识别" := "Powered by Gemini",
      "自动识别" := "AI Recognize",
      "识别失败" := "Failed",
      "日期" := "Date",
      "类型" := "Type",
      "金额" := "Amount",
      "分类" := "Category",
      "例如：餐饮、交通" := "e.g., Food, Travel",
      "渠道" := "Channel",
      "备注" := "Note",
      "选填" := "Optional",
      "总收入" := "Total Income",
      "总支出" := "Total Expense",
      "AI 财务分析" := "AI Financial Analysis",
      "开始分析" := "Start Analysis",
      "点击按钮，生成收支结构评价与省钱建议。" := "Tap to generate analysis.",
      "支出构成" := "Expense Structure",
      "收入构成" := "Income Structure",
      "无支出" := "No expenses",
      "AI 设置" := "AI Settings",
      "AI 模型选择" := "AI Model Selection",
      "服务商" := "Provider",
      "API Key 配置 (仅本地保存)" := "API Key (Local Only)",
      "获取 DeepSeek Key (推荐)" := "Get DeepSeek Key",
      "说明" := "Note",
      "配置 API Key 后，您可以使用自然语言记账（如'打车20元'）以及获取智能财务分析建议。" := "Enable AI features by configuring API Key.",
      "语言设置" := "Language",
      "应用语言" := "App Language",
      "中文简体" := "简体中文",
      "英文" := "English",
      "进入网络诊断实验室" := "Enter Network Diagnostic Lab",
      "网络诊断实验室" := "Network Diagnostic Lab",
      "准备就绪，请点击下方按钮测试..." := "Ready. Tap buttons below to test...",
      "测试" := "Test",
      "❌ 错误: Gemini Key 为空" := "❌ Error: Gemini Key is empty",
      "❌ 错误: DeepSeek Key 为空" := "❌ Error: DeepSeek Key is empty",
      "❌ 错误: OpenAI Key 为空" := "❌ Error: OpenAI Key is empty",
      "⏳ 正在请求 Gemini..." := "⏳ Requesting Gemini...",
      "⏳ 正在请求 DeepSeek..." := "⏳ Requesting DeepSeek...",
      "⏳ 正在请求 ChatGPT..." := "⏳ Requesting ChatGPT...",
      "❌ URL 构造失败" := "❌ URL Construction Failed",
      "无法解析内容" := "Unable to parse content",
      "响应结果" := "Response",
      "状态码" := "Status Code",
      "❌ 请求错误" := "❌ Request Error",
      "收入" := "Income",
      "支出" := "Expense",
      "银行存款" := "Bank Deposit",
      "现金" := "Cash",
      "公积金" := "Provident Fund",
      "理财产品" := "Wealth Product",
      "外币" := "Foreign Currency",
      "其他" := "Other",
      "资金账户" := "Fund Account",
      "投资理财" := "Investment",
      "固定资产" := "Fixed Assets",
      "负债/借出" := "Debt/Loan"
  ]

  /** `t(_:)`: the key itself in Chinese; in English the dictionary entry, or the key when there is none. */
  function T(lang: Language, key: string): (r: string)
    ensures lang == ZhHans ==> r == key
    ensures lang == En && key in Translations ==> r == Translations[key]
    ensures key !in Translations ==> r == key
  {
    if lang == ZhHans then key else if key in Translations then Translations[key] else key
  }

  const EnMonths: seq<string> := ["Jan.", "Feb.", "Mar.", "Apr.", "May", "Jun.", "Jul.", "Aug.", "Sep.", "Oct.", "Nov.", "Dec."]

  /** `formatMonth(_:)`: "<m>月" in Chinese; the English abbreviation for 1..12, the bare number otherwise. */
  function FormatMonth(lang: Language, month: int): string {
    if lang == ZhHans then IntToString(month) + "月"
    else if 1 <= month <= 12 then EnMonths[month - 1]
    else IntToString(month)
  }

  /** `formatYear(_:)`: "<y>年" in Chinese, the bare number in English. */
  function FormatYear(lang: Language, year: int): string {
    if lang == ZhHans then IntToString(year) + "年" else IntToString(year)
  }

  /** `formatMonthlyReportTitle(year:month:)`. */
  function MonthlyReportTitle(lang: Language, year: int, month: int): string {
    if lang == ZhHans then IntToString(year) + "年" + IntToString(month) + "月 报表"
    else IntToString(year) + " " + FormatMonth(En, month) + " Report"
  }

  /** `formatYearlyReportTitle(year:)`. */
  function YearlyReportTitle(lang: Language, year: int): string {
    if lang == ZhHans then IntToString(year) + "全年 汇总报表" else IntToString(year) + " Annual Report"
  }

  /** A common suffix can be cancelled. */
  lemma SuffixCancel(a: string, b: string, s: string)
    requires a + s == b + s
    ensures a == b
  {
    assert a == (a + s)[..|a|];
    assert b == (b + s)[..|b|];
  }

  /** The twelve English abbreviations are pairwise distinct and none starts like a number. */
  lemma EnMonthsDistinct()
    ensures forall i, j :: 0 <= i < j < 12 ==> EnMonths[i] != EnMonths[j]
    ensures forall i :: 0 <= i < 12 ==> |EnMonths[i]| >= 1 && EnMonths[i][0] != '-' && !IsDigit(EnMonths[i][0])
  {
  }

  /** Different months never share a label, in either language. */
  lemma {:induction false} FormatMonthInjective(lang: Language, a: int, b: int)
    requires FormatMonth(lang, a) == FormatMonth(lang, b)
    ensures a == b
  {
    EnMonthsDistinct();
    if lang == ZhHans {
      SuffixCancel(IntToString(a), IntToString(b), "月");
      IntToStringInjective(a, b);
    } else if !(1 <= a <= 12) && !(1 <= b <= 12) {
      IntToStringInjective(a, b);
    }
  }

  /** Different years never share a label. */
  lemma FormatYearInjective(lang: Language, a: int, b: int)
    requires FormatYear(lang, a) == FormatYear(lang, b)
    ensures a == b
  {
    if lang == ZhHans {
      SuffixCancel(IntToString(a), IntToString(b), "年");
    }
    IntToStringInjective(a, b);
  }

  /** The Chinese monthly title names exactly one (year, month). */
  lemma ZhMonthlyTitleInjective(y1: int, m1: int, y2: int, m2: int)
    requires IntToString(y1) + "年" + IntToString(m1) + "月 报表" == IntToString(y2) + "年" + IntToString(m2) + "月 报表"
    ensures y1 == y2 && m1 == m2
  {
    var a1, a2 := IntToString(y1), IntToString(y2);
    var t1, t2 := IntToString(m1) + "月 报表", IntToString(m2) + "月 报表";
    assert a1 + "年" + IntToString(m1) + "月 报表" == a1 + ['年'] + t1;
    assert a2 + "年" + IntToString(m2) + "月 报表" == a2 + ['年'] + t2;
    IntToStringChars(y1, '年');
    IntToStringChars(y2, '年');
    CutAtMarker(a1, t1, a2, t2, '年');
    SuffixCancel(IntToString(m1), IntToString(m2), "月 报表");
    IntToStringInjective(m1, m2);
    IntToStringInjective(y1, y2);
  }

  /** The English monthly title names exactly one (year, month). */
  lemma EnMonthlyTitleInjective(y1: int, m1: int, y2: int, m2: int)
    requires IntToString(y1) + " " + FormatMonth(En, m1) + " Report" == IntToString(y2) + " " + FormatMonth(En, m2) + " Report"
    ensures y1 == y2 && m1 == m2
  {
    var a1, a2 := IntToString(y1), IntToString(y2);
    var f1, f2 := FormatMonth(En, m1), FormatMonth(En, m2);
    var t1, t2 := f1 + " Report", f2 + " Report";
    assert a1 + " " + f1 + " Report" == a1 + [' '] + t1;
    assert a2 + " " + f2 + " Report" == a2 + [' '] + t2;
    IntToStringChars(y1, ' ');
    IntToStringChars(y2, ' ');
    CutAtMarker(a1, t1, a2, t2, ' ');
    SuffixCancel(f1, f2, " Report");
    FormatMonthInjective(En, m1, m2);
    IntToStringInjective(y1, y2);
  }

  /** A monthly report title names exactly one (year, month), in either language. */
  lemma MonthlyReportTitleInjective(lang: Language, y1: int, m1: int, y2: int, m2: int)
    requires MonthlyReportTitle(lang, y1, m1) == MonthlyReportTitle(lang, y2, m2)
    ensures y1 == y2 && m1 == m2
  {
    if lang == ZhHans {
      ZhMonthlyTitleInjective(y1, m1, y2, m2);
    } else {
      EnMonthlyTitleInjective(y1, m1, y2, m2);
    }
  }

  /** A yearly report title names exactly one year. */
  lemma YearlyReportTitleInjective(lang: Language, y1: int, y2: int)
    requires YearlyReportTitle(lang, y1) == YearlyReportTitle(lang, y2)
    ensures y1 == y2
  {
    if lang == ZhHans {
      SuffixCancel(IntToString(y1), IntToString(y2), "全年 汇总报表");
    } else {
      SuffixCancel(IntToString(y1), IntToString(y2), " Annual Report");
    }
    IntToStringInjective(y1, y2);
  }
}
