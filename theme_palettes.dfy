/** The style tables of the three built-in themes, as the theme definitions spell them out. */
module ThemePalettes {
  type Flat = map<string, string>
  type Groups = map<string, Flat>

  const DefaultColors: Groups := map[
    "background" := map["primary" := "#ffffff",
          "secondary" := "#f8fafc",
          "tertiary" := "#f1f5f9",
          "accent" := "#e2e8f0",
          "surface" := "#ffffff",
          "overlay" := "rgba(0, 0, 0, 0.5)"],
    "text" := map["primary" := "#0f172a",
          "secondary" := "#475569",
          "tertiary" := "#64748b",
          "accent" := "#3b82f6",
          "inverse" := "#ffffff",
          "muted" := "#94a3b8"],
    "border" := map["primary" := "#e2e8f0",
          "secondary" := "#f1f5f9",
          "accent" := "#3b82f6",
          "muted" := "#f8fafc"],
    "interactive" := map["primary" := "#3b82f6",
          "secondary" := "#64748b",
          "success" := "#10b981",
          "warning" := "#f59e0b",
          "error" := "#ef4444",
          "info" := "#06b6d4"],
    "status" := map["success" := "#10b981",
          "warning" := "#f59e0b",
          "error" := "#ef4444",
          "info" := "#06b6d4"],
    "special" := map["highlight" := "#fef3c7",
          "shadow" := "rgba(0, 0, 0, 0.1)",
          "glow" := "rgba(59, 130, 246, 0.5)"]
  ]

  const DefaultSpacing: Flat := map["xs" := "0.25rem",
      "sm" := "0.5rem",
      "md" := "1rem",
      "lg" := "1.5rem",
      "xl" := "2rem",
      "2xl" := "3rem",
      "3xl" := "4rem"]

  const DefaultTypography: Groups := map[
    "fontFamily" := map["sans" := "Inter, system-ui, -apple-system, sans-serif",
          "serif" := "Georgia, Cambria, serif",
          "mono" := "JetBrains Mono, Consolas, monospace"],
    "fontSize" := map["xs" := "0.75rem",
          "sm" := "0.875rem",
          "base" := "1rem",
          "lg" := "1.125rem",
          "xl" := "1.25rem",
          "2xl" := "1.5rem",
          "3xl" := "1.875rem",
          "4xl" := "2.25rem",
          "5xl" := "3rem"],
    "fontWeight" := map["light" := "300",
          "normal" := "400",
          "medium" := "500",
          "semibold" := "600",
          "bold" := "700",
          "extrabold" := "800"],
    "lineHeight" := map["tight" := "1.25",
          "normal" := "1.5",
          "relaxed" := "1.75"]
  ]

  const DefaultShadows: Flat := map["sm" := "0 1px 2px 0 rgba(0, 0, 0, 0.05)",
      "md" := "0 4px 6px -1px rgba(0, 0, 0, 0.1)",
      "lg" := "0 10px 15px -3px rgba(0, 0, 0, 0.1)",
      "xl" := "0 20px 25px -5px rgba(0, 0, 0, 0.1)",
      "2xl" := "0 25px 50px -12px rgba(0, 0, 0, 0.25)",
      "inner" := "inset 0 2px 4px 0 rgba(0, 0, 0, 0.06)",
      "none" := "none"]

  const DefaultBorderRadius: Flat := map["none" := "0",
      "sm" := "0.125rem",
      "md" := "0.375rem",
      "lg" := "0.5rem",
      "xl" := "0.75rem",
      "2xl" := "1rem",
      "full" := "9999px"]

  const DefaultTransitions: Groups := map[
    "duration" := map["fast" := "150ms",
          "normal" := "300ms",
          "slow" := "500ms"],
    "easing" := map["linear" := "linear",
          "ease" := "ease",
          "easeIn" := "ease-in",
          "easeOut" := "ease-out",
          "easeInOut" := "ease-in-out"]
  ]

  const DarkColors: Groups := map[
    "background" := map["primary" := "#0f172a",
          "secondary" := "#1e293b",
          "tertiary" := "#334155",
          "accent" := "#475569",
          "surface" := "#1e293b",
          "overlay" := "rgba(0, 0, 0, 0.7)"],
    "text" := map["primary" := "#f8fafc",
          "secondary" := "#cbd5e1",
          "tertiary" := "#94a3b8",
          "accent" := "#60a5fa",
          "inverse" := "#0f172a",
          "muted" := "#64748b"],
    "border" := map["primary" := "#334155",
          "secondary" := "#475569",
          "accent" := "#60a5fa",
          "muted" := "#1e293b"],
    "interactive" := map["primary" := "#60a5fa",
          "secondary" := "#94a3b8",
          "success" := "#34d399",
          "warning" := "#fbbf24",
          "error" := "#f87171",
          "info" := "#22d3ee"],
    "status" := map["success" := "#34d399",
          "warning" := "#fbbf24",
          "error" := "#f87171",
          "info" := "#22d3ee"],
    "special" := map["highlight" := "#451a03",
          "shadow" := "rgba(0, 0, 0, 0.3)",
          "glow" := "rgba(96, 165, 250, 0.5)"]
  ]

  const DarkShadows: Flat := map["sm" := "0 1px 2px 0 rgba(0, 0, 0, 0.3)",
      "md" := "0 4px 6px -1px rgba(0, 0, 0, 0.4)",
      "lg" := "0 10px 15px -3px rgba(0, 0, 0, 0.4)",
      "xl" := "0 20px 25px -5px rgba(0, 0, 0, 0.4)",
      "2xl" := "0 25px 50px -12px rgba(0, 0, 0, 0.5)",
      "inner" := "inset 0 2px 4px 0 rgba(0, 0, 0, 0.2)",
      "none" := "none"]

  const HighContrastColors: Groups := map[
    "background" := map["primary" := "#000000",
          "secondary" := "#1a1a1a",
          "tertiary" := "#333333",
          "accent" := "#ffffff",
          "surface" := "#000000",
          "overlay" := "rgba(255, 255, 255, 0.9)"],
    "text" := map["primary" := "#ffffff",
          "secondary" := "#e6e6e6",
          "tertiary" := "#cccccc",
          "accent" := "#ffff00",
          "inverse" := "#000000",
          "muted" := "#999999"],
    "border" := map["primary" := "#ffffff",
          "secondary" := "#cccccc",
          "accent" := "#ffff00",
          "muted" := "#666666"],
    "interactive" := map["primary" := "#ffff00",
          "secondary" := "#ffffff",
          "success" := "#00ff00",
          "warning" := "#ffaa00",
          "error" := "#ff0000",
          "info" := "#00ffff"],
    "status" := map["success" := "#00ff00",
          "warning" := "#ffaa00",
          "error" := "#ff0000",
          "info" := "#00ffff"],
    "special" := map["highlight" := "#ffff00",
          "shadow" := "rgba(255, 255, 255, 0.5)",
          "glow" := "rgba(255, 255, 0, 0.8)"]
  ]

  const HighContrastShadows: Flat := map["sm" := "0 1px 2px 0 rgba(255, 255, 255, 0.3)",
      "md" := "0 4px 6px -1px rgba(255, 255, 255, 0.4)",
      "lg" := "0 10px 15px -3px rgba(255, 255, 255, 0.4)",
      "xl" := "0 20px 25px -5px rgba(255, 255, 255, 0.4)",
      "2xl" := "0 25px 50px -12px rgba(255, 255, 255, 0.5)",
      "inner" := "inset 0 2px 4px 0 rgba(255, 255, 255, 0.2)",
      "none" := "none"]
}
