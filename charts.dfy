/** The chart palette and the fixed pie datasets of constants.ts. */
module Charts {
  import opened Types

  /** Nine distinct colours, indexed modulo their count. */
  function Colors(): (cs: seq<string>)
    ensures |cs| == 9
    ensures forall j, k :: 0 <= j < k < |cs| ==> cs[j] != cs[k]
  {
    ["#0ea5e9", "#22c55e", "#eab308", "#f43f5e", "#8b5cf6", "#d946ef", "#64748b", "#ec4899", "#14b8a6"]
  }

  function PieDataCost(): seq<PieSlice> {
    [ PieSlice("充电桩资产", 30), PieSlice("变压器/增容", 15), PieSlice("电气配套", 10),
      PieSlice("运维支出", 12), PieSlice("场地租金", 10), PieSlice("购电成本", 15),
      PieSlice("人工支出", 5), PieSlice("平台服务费", 3) ]
  }

  function PieDataPower(): seq<PieSlice> {
    [ PieSlice("直流快充", 45), PieSlice("液冷超充", 25), PieSlice("交流慢充", 20), PieSlice("V2G终端", 10) ]
  }

  function PieDataFunction(): seq<PieSlice> {
    [ PieSlice("专用场站", 120), PieSlice("公共开放", 350), PieSlice("换电站", 45),
      PieSlice("居民小区", 210), PieSlice("商业中心", 180), PieSlice("高速服务", 95) ]
  }

  function PieDataUtilization(): seq<PieSlice> {
    [ PieSlice("高利用率 (>60%)", 200), PieSlice("中利用率 (30-60%)", 450), PieSlice("低利用率 (<30%)", 350) ]
  }

  function PieDataCostDist(): seq<PieSlice> {
    [ PieSlice("高成本站", 150), PieSlice("中成本站", 500), PieSlice("低成本站", 350) ]
  }

  function PieDataL2Grid(): seq<PieSlice> {
    [ PieSlice("核心商业网格", 320), PieSlice("居住密集网格", 480), PieSlice("工业区网格", 150), PieSlice("其他网格", 50) ]
  }

  function PieDataServiceCap(): seq<PieSlice> {
    [ PieSlice("S级卓越", 120), PieSlice("A级优秀", 340), PieSlice("B级良好", 400), PieSlice("C级一般", 140) ]
  }

  function PieDataOpsStatus(): seq<PieSlice> {
    [ PieSlice("运营正常", 850), PieSlice("部分故障", 120), PieSlice("停运维护", 30) ]
  }

  /** Every pie the panels draw. */
  function AllPies(): (ps: seq<seq<PieSlice>>)
    ensures |ps| == 8
    ensures forall k :: 0 <= k < |ps| ==> 1 <= |ps[k]| <= 8
  {
    [ PieDataCost(), PieDataPower(), PieDataFunction(), PieDataUtilization(),
      PieDataCostDist(), PieDataL2Grid(), PieDataServiceCap(), PieDataOpsStatus() ]
  }
}
